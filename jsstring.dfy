/** The JavaScript string behaviour the identity mapper relies on: truthiness and `split`. */
module JsString {
  import opened Wrappers

  /** JavaScript truthiness of a string: only `""` is falsy. */
  predicate Truthy(s: string)
  {
    s != ""
  }

  /** JavaScript truthiness of an optional string: absent and `""` are both falsy. */
  predicate Present(s: Option<string>)
  {
    s.Some? && Truthy(s.value)
  }

  /** `s.split(sep)` for a one-character separator: the pieces between separators, in order. */
  function Split(s: string, sep: char): (parts: seq<string>)
    ensures |parts| >= 1
    ensures forall i :: 0 <= i < |parts| ==> sep !in parts[i]
    decreases |s|
  {
    if s == [] then [""]
    else
      var rest := Split(s[1..], sep);
      if s[0] == sep then [""] + rest
      else [[s[0]] + rest[0]] + rest[1..]
  }

  /** `parts.join(sep)`. */
  function Join(parts: seq<string>, sep: char): string
    requires |parts| >= 1
    decreases |parts|
  {
    if |parts| == 1 then parts[0] else parts[0] + [sep] + Join(parts[1..], sep)
  }

  /** `p` is the longest prefix of `s` that does not contain `sep`. */
  ghost predicate FirstRun(s: string, sep: char, p: string)
  {
    p <= s && sep !in p && (|p| == |s| || s[|p|] == sep)
  }

  /** Splitting loses nothing: joining the pieces back gives the original string. */
  lemma {:induction false} JoinSplit(s: string, sep: char)
    ensures Join(Split(s, sep), sep) == s
    decreases |s|
  {
    if s != [] {
      JoinSplit(s[1..], sep);
      var rest := Split(s[1..], sep);
      if s[0] == sep {
        assert ([""] + rest)[1..] == rest;
      } else if |rest| > 1 {
        assert ([[s[0]] + rest[0]] + rest[1..])[1..] == rest[1..];
      }
    }
  }

  /** The first piece of a split is the text before the first separator. */
  lemma {:induction false} SplitHead(s: string, sep: char)
    ensures FirstRun(s, sep, Split(s, sep)[0])
    decreases |s|
  {
    if s != [] && s[0] != sep {
      SplitHead(s[1..], sep);
      var p := Split(s[1..], sep)[0];
      assert Split(s, sep)[0] == [s[0]] + p;
      assert s == [s[0]] + s[1..];
    }
  }

  /** At most one prefix is the text before the first separator. */
  lemma FirstRunUnique(s: string, sep: char, p: string, q: string)
    requires FirstRun(s, sep, p) && FirstRun(s, sep, q)
    ensures p == q
  {
    assert p == s[..|p|] && q == s[..|q|];
  }
}
