/** Splitting and joining text, as JavaScript's `split` and `join` do for a one-character separator. */
module Text {
  /** `s.split(sep)`: the pieces between separators, always at least one. */
  function Split(s: string, sep: char): (parts: seq<string>)
    ensures |parts| >= 1
    ensures forall p :: p in parts ==> sep !in p
  {
    if s == "" then [""]
    else
      var rest := Split(s[1..], sep);
      if s[0] == sep then [""] + rest
      else [[s[0]] + rest[0]] + rest[1..]
  }

  /** `parts.join(glue)`. */
  function Join(parts: seq<string>, glue: string): string {
    if |parts| == 0 then ""
    else if |parts| == 1 then parts[0]
    else parts[0] + glue + Join(parts[1..], glue)
  }

  lemma JoinOfLongerFirst(c: char, parts: seq<string>, glue: string)
    requires parts != []
    ensures Join([[c] + parts[0]] + parts[1..], glue) == [c] + Join(parts, glue)
  {
    var longer := [[c] + parts[0]] + parts[1..];
    assert longer[1..] == parts[1..];
    if |parts| > 1 {
      var rest := Join(parts[1..], glue);
      assert [c] + parts[0] + glue + rest == [c] + (parts[0] + glue + rest);
    }
  }

  lemma {:induction false} JoinOfSplit(s: string, sep: char)
    ensures Join(Split(s, sep), [sep]) == s
  {
    if s != "" {
      var rest := Split(s[1..], sep);
      JoinOfSplit(s[1..], sep);
      assert [s[0]] + s[1..] == s;
      if s[0] == sep {
        assert ([""] + rest)[1..] == rest;
      } else {
        JoinOfLongerFirst(s[0], rest, [sep]);
      }
    }
  }

  lemma {:induction false} SplitOfPrefix(p: string, t: string, sep: char)
    requires sep !in p
    ensures Split(p + t, sep) == [p + Split(t, sep)[0]] + Split(t, sep)[1..]
  {
    if p == "" {
      assert p + t == t && p + Split(t, sep)[0] == Split(t, sep)[0];
    } else {
      SplitOfPrefix(p[1..], t, sep);
      assert (p + t)[1..] == p[1..] + t;
      assert [p[0]] + (p[1..] + Split(t, sep)[0]) == p + Split(t, sep)[0];
    }
  }

  lemma {:induction false} SplitOfJoin(parts: seq<string>, sep: char)
    requires |parts| >= 1
    requires forall p :: p in parts ==> sep !in p
    ensures Split(Join(parts, [sep]), sep) == parts
  {
    if |parts| == 1 {
      SplitOfPrefix(parts[0], "", sep);
      assert parts[0] + "" == parts[0];
    } else {
      var tail := Join(parts[1..], [sep]);
      SplitOfJoin(parts[1..], sep);
      SplitOfPrefix(parts[0], [sep] + tail, sep);
      assert ([sep] + tail)[1..] == tail;
      assert Join(parts, [sep]) == parts[0] + ([sep] + tail);
      assert parts[0] + "" == parts[0];
    }
  }
}
