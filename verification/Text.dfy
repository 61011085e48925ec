// Splitting and joining of strings on one separator character, as Go's
// strings.Split and strings.Join do.
module Text {

  // strings.Split: never empty, and "" splits into one empty field.
  function Split(s: string, sep: char): (fields: seq<string>)
    ensures |fields| >= 1
  {
    if s == "" then [""]
    else
      var rest := Split(s[1..], sep);
      if s[0] == sep then [""] + rest else [[s[0]] + rest[0]] + rest[1..]
  }

  // strings.Join
  function Join(fields: seq<string>, sep: char): string {
    if |fields| == 0 then ""
    else if |fields| == 1 then fields[0]
    else fields[0] + [sep] + Join(fields[1..], sep)
  }

  predicate Free(s: string, sep: char) {
    forall i :: 0 <= i < |s| ==> s[i] != sep
  }

  lemma {:induction false} SplitFree(s: string, sep: char)
    requires Free(s, sep)
    ensures Split(s, sep) == [s]
  {
    if s != "" {
      SplitFree(s[1..], sep);
      assert s == [s[0]] + s[1..];
    }
  }

  // The first separator ends the first field.
  lemma {:induction false} SplitCons(a: string, sep: char, t: string)
    requires Free(a, sep)
    ensures Split(a + [sep] + t, sep) == [a] + Split(t, sep)
  {
    var s := a + [sep] + t;
    if a == "" {
      assert s[1..] == t;
    } else {
      SplitCons(a[1..], sep, t);
      assert s[1..] == a[1..] + [sep] + t;
      assert a == [a[0]] + a[1..];
    }
  }

  // Splitting undoes joining when no field holds the separator.
  lemma {:induction false} SplitJoin(fields: seq<string>, sep: char)
    requires |fields| >= 1
    requires forall i :: 0 <= i < |fields| ==> Free(fields[i], sep)
    ensures Split(Join(fields, sep), sep) == fields
  {
    if |fields| == 1 {
      SplitFree(fields[0], sep);
    } else {
      SplitJoin(fields[1..], sep);
      SplitCons(fields[0], sep, Join(fields[1..], sep));
    }
  }

  // No field holds the separator.
  lemma {:induction false} SplitAllFree(s: string, sep: char)
    ensures forall i :: 0 <= i < |Split(s, sep)| ==> Free(Split(s, sep)[i], sep)
  {
    if s != "" {
      SplitAllFree(s[1..], sep);
      var rest := Split(s[1..], sep);
      assert Split(s, sep)[1..] == if s[0] == sep then rest else rest[1..];
    }
  }

  // A last field without the separator is split off unchanged.
  lemma {:induction false} SplitSnoc(p: string, sep: char, e: string)
    requires Free(e, sep)
    ensures Split(p + [sep] + e, sep) == Split(p, sep) + [e]
  {
    var s := p + [sep] + e;
    if p == "" {
      assert s[1..] == e;
      SplitFree(e, sep);
    } else {
      SplitSnoc(p[1..], sep, e);
      assert s[1..] == p[1..] + [sep] + e;
      assert s[0] == p[0];
    }
  }

  lemma {:induction false} JoinSnoc(fields: seq<string>, sep: char, e: string)
    requires |fields| >= 1
    ensures Join(fields + [e], sep) == Join(fields, sep) + [sep] + e
  {
    if |fields| > 1 {
      JoinSnoc(fields[1..], sep, e);
      assert (fields + [e])[1..] == fields[1..] + [e];
    }
  }
}
