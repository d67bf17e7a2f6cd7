/** The configuration snapshot the bootstrap code reads: a flat map from
    hierarchical key paths to string values, the `:`-joined paths of
    `ConfigurationPath.Combine`, and configuration sections. */
module Configuration {
  import opened Wrappers

  /** A loaded configuration; a key that is not present reads as null */
  type Config = map<string, string>

  /** `ConfigurationPath.KeyDelimiter` */
  const KeyDelimiter: char := ':'

  /** `configuration[key]`: the configured value, or null when the key is absent */
  function Lookup(c: Config, key: string): (v: Option<string>)
  {
    if key in c then Some(c[key]) else None
  }

  /** `ConfigurationPath.Combine`: the segments joined by the key delimiter */
  function Combine(segments: seq<string>): (path: string)
  {
    if |segments| == 0 then ""
    else if |segments| == 1 then segments[0]
    else segments[0] + [KeyDelimiter] + Combine(segments[1..])
  }

  /** Position of the first occurrence of `ch` in `s` */
  function IndexOf(s: string, ch: char): (i: nat)
    requires ch in s
    ensures i < |s| && s[i] == ch
    ensures ch !in s[..i]
  {
    if s[0] == ch then 0
    else
      assert ch in s[1..] by { assert s == [s[0]] + s[1..]; }
      var j := IndexOf(s[1..], ch);
      assert s[..j + 1] == [s[0]] + s[1..][..j];
      j + 1
  }

  /** The segments of a key path: the inverse of `Combine` */
  function Split(path: string): (segments: seq<string>)
    ensures |segments| >= 1
    decreases |path|
  {
    if KeyDelimiter !in path then [path]
    else
      var i := IndexOf(path, KeyDelimiter);
      [path[..i]] + Split(path[i + 1..])
  }

  /** A segment that can be recovered from a joined path */
  predicate IsSegment(s: string)
  {
    KeyDelimiter !in s
  }

  /** Joining the segments of any path gives the path back. */
  lemma {:induction false} CombineSplit(path: string)
    ensures Combine(Split(path)) == path
    decreases |path|
  {
    if KeyDelimiter in path {
      var i := IndexOf(path, KeyDelimiter);
      var rest := Split(path[i + 1..]);
      CombineSplit(path[i + 1..]);
      assert ([path[..i]] + rest)[1..] == rest;
      assert path == path[..i] + [KeyDelimiter] + path[i + 1..];
    }
  }

  /** Splitting a joined path gives back its segments, provided there is at
      least one segment and none of them contains the delimiter. */
  lemma {:induction false} SplitCombine(segments: seq<string>)
    requires |segments| >= 1
    requires forall k | 0 <= k < |segments| :: IsSegment(segments[k])
    ensures Split(Combine(segments)) == segments
    decreases |segments|
  {
    if |segments| > 1 {
      var head := segments[0];
      var tail := Combine(segments[1..]);
      var path := head + [KeyDelimiter] + tail;
      assert path[|head|] == KeyDelimiter;
      assert KeyDelimiter in path;
      var i := IndexOf(path, KeyDelimiter);
      assert path[..|head|] == head;
      assert i == |head|;
      assert path[..i] == head;
      assert path[i + 1..] == tail;
      SplitCombine(segments[1..]);
      assert segments == [head] + segments[1..];
    }
  }

  /** Appending one segment to a non-empty path joins it with one delimiter. */
  lemma {:induction false} CombineSnoc(prefix: seq<string>, last: string)
    requires |prefix| >= 1
    ensures Combine(prefix + [last]) == Combine(prefix) + [KeyDelimiter] + last
    decreases |prefix|
  {
    var whole := prefix + [last];
    if |prefix| > 1 {
      assert whole[1..] == prefix[1..] + [last];
      CombineSnoc(prefix[1..], last);
    } else {
      assert whole[1..] == [last];
    }
  }

  /** A two-segment path is the two segments around one delimiter. */
  lemma CombinePair(first: string, second: string)
    ensures Combine([first, second]) == first + [KeyDelimiter] + second
  {
    assert [first, second][1..] == [second];
  }

  /** `IConfiguration.GetSection(path)`: a view of the root at a path prefix */
  datatype Section = Section(root: Config, path: string) {

    /** `section[key]` reads the root at the combined path */
    function Get(key: string): (v: Option<string>)
    {
      Lookup(root, Combine([path, key]))
    }
  }

  function GetSection(c: Config, path: string): (section: Section)
  {
    Section(c, path)
  }

  /** Reading a key in the section at `Combine(prefix)` is the same as reading
      the flat path `Combine(prefix + [key])` in the root. */
  lemma SectionGetIsFlatLookup(c: Config, prefix: seq<string>, key: string)
    requires |prefix| >= 1
    ensures GetSection(c, Combine(prefix)).Get(key) == Lookup(c, Combine(prefix + [key]))
  {
    CombineSnoc(prefix, key);
  }
}
