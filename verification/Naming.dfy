// Object names, volume names and file system paths, as they are built by the
// image repository, the pool manager and the domain designer.
module Naming {
  import opened Text

  // The characters the escaping pattern leaves alone.
  predicate Kept(c: char) {
    'a' <= c <= 'z' || 'A' <= c <= 'Z' || '0' <= c <= '9' || c == '_' || c == '-'
  }

  function EscapeChar(c: char): char {
    if Kept(c) then c else '_'
  }

  // escapeObjname and EscapeObjectName: one character in, one character out.
  function Escape(name: string): (r: string)
    ensures |r| == |name|
    ensures forall i :: 0 <= i < |r| ==> Kept(r[i])
  {
    seq(|name|, i requires 0 <= i < |name| => EscapeChar(name[i]))
  }

  function MakeVolName(name: string, format: string): string {
    Escape(name) + "." + format
  }

  const LOWER := "abcdefghijklmnopqrstuvwxyz"
  const UPPER := "ABCDEFGHIJKLMNOPQRSTUVWXYZ"
  const OTHERS := "0123456789_-"

  predicate NameChar(c: char) {
    c in LOWER || c in UPPER || c in OTHERS
  }

  lemma LowerExactly(c: char)
    ensures 'a' <= c <= 'z' <==> c in LOWER
  {
    if 'a' <= c <= 'z' { assert LOWER[c as int - 'a' as int] == c; }
  }

  lemma UpperExactly(c: char)
    ensures 'A' <= c <= 'Z' <==> c in UPPER
  {
    if 'A' <= c <= 'Z' { assert UPPER[c as int - 'A' as int] == c; }
  }

  lemma OthersExactly(c: char)
    ensures '0' <= c <= '9' || c == '_' || c == '-' <==> c in OTHERS
  {
    if '0' <= c <= '9' { assert OTHERS[c as int - '0' as int] == c; }
    if c == '_' { assert OTHERS[10] == c; }
    if c == '-' { assert OTHERS[11] == c; }
  }

  lemma KeptExactly(c: char)
    ensures Kept(c) <==> NameChar(c)
  {
    LowerExactly(c);
    UpperExactly(c);
    OthersExactly(c);
  }

  // A volume is named after its file, with '_' for every character that is no
  // letter, digit, '_' or '-', then a dot, then the format.
  lemma VolNameShape(name: string, format: string)
    ensures var v := MakeVolName(name, format);
            && |v| == |name| + 1 + |format|
            && (forall i :: 0 <= i < |name| ==> v[i] == if NameChar(name[i]) then name[i] else '_')
            && v[|name|] == '.' && v[|name| + 1..] == format
  {
    var v := MakeVolName(name, format);
    assert v[..|name|] == Escape(name);
    forall i | 0 <= i < |name|
      ensures v[i] == if NameChar(name[i]) then name[i] else '_'
    {
      KeptExactly(name[i]);
      assert v[i] == Escape(name)[i];
    }
  }

  // Lower-case letters, digits, '-' and '.', the alphabet of labels joined by
  // dots (section 2.1 of RFC 1123).
  predicate ObjectChar(c: char) {
    'a' <= c <= 'z' || '0' <= c <= '9' || c == '-' || c == '.'
  }

  predicate ObjectName(name: string) {
    name != "" && forall i :: 0 <= i < |name| ==> ObjectChar(name[i])
  }

  function Unescape(name: string): string {
    seq(|name|, i requires 0 <= i < |name| => if name[i] == '_' then '.' else name[i])
  }

  lemma EscapeIdempotent(name: string)
    ensures Escape(Escape(name)) == Escape(name)
  {
    assert forall i :: 0 <= i < |name| ==> Escape(Escape(name))[i] == Escape(name)[i];
  }

  lemma UnescapeInverts(name: string)
    requires ObjectName(name)
    ensures Unescape(Escape(name)) == name
  {
    assert forall i :: 0 <= i < |name| ==> Unescape(Escape(name))[i] == name[i];
  }

  // The name of the file, read back from a volume name of that format.
  function FileNameOf(v: string, format: string): string
    requires |format| < |v|
  {
    Unescape(v[..|v| - |format| - 1])
  }

  lemma VolNameReadsBack(name: string, format: string)
    requires ObjectName(name)
    ensures FileNameOf(MakeVolName(name, format), format) == name
  {
    VolNameShape(name, format);
    assert MakeVolName(name, format)[..|name|] == Escape(name);
    UnescapeInverts(name);
  }

  // Exactly when two object names share a volume name.
  lemma CollideExactly(a: string, b: string, format: string)
    ensures MakeVolName(a, format) == MakeVolName(b, format)
       <==> && |a| == |b|
            && forall i :: 0 <= i < |a| ==> a[i] == b[i] || (EscapeChar(a[i]) == '_' && EscapeChar(b[i]) == '_')
  {
    var va, vb := MakeVolName(a, format), MakeVolName(b, format);
    if va == vb {
      assert Escape(a) == va[..|a|] && Escape(b) == vb[..|b|];
      forall i | 0 <= i < |a|
        ensures a[i] == b[i] || (EscapeChar(a[i]) == '_' && EscapeChar(b[i]) == '_')
      {
        assert Escape(a)[i] == Escape(b)[i];
      }
    } else if |a| == |b| {
      assert Escape(a) != Escape(b);
    }
  }

  // Volume names of objects never collide for a fixed format.
  lemma VolNameInjective(a: string, b: string, format: string)
    requires ObjectName(a) && ObjectName(b)
    requires MakeVolName(a, format) == MakeVolName(b, format)
    ensures a == b
  {
    CollideExactly(a, b, format);
    UnescapeInverts(a);
    UnescapeInverts(b);
  }

  // ---- path.Join and path.Clean ----

  // Lexical processing of one more element, on the stack of names so far.
  function Push(rooted: bool, st: seq<string>, e: string): seq<string> {
    if e == "" || e == "." then st
    else if e == ".." then
      if st != [] && st[|st| - 1] != ".." then st[..|st| - 1]
      else if rooted then st else st + [".."]
    else st + [e]
  }

  function Resolve(rooted: bool, elems: seq<string>): seq<string> {
    if elems == [] then []
    else Push(rooted, Resolve(rooted, elems[..|elems| - 1]), elems[|elems| - 1])
  }

  function Clean(p: string): string {
    var rooted := p != "" && p[0] == '/';
    var body := Join(Resolve(rooted, Split(p, '/')), '/');
    if rooted then "/" + body else if body == "" then "." else body
  }

  // path.Join skips leading empty elements and cleans the rest.
  function PathJoin(elems: seq<string>): string {
    if elems == [] then ""
    else if elems[0] == "" then PathJoin(elems[1..])
    else Clean(Join(elems, '/'))
  }

  // An element that lexical processing keeps as it is.
  predicate Plain(e: string) {
    e != "" && e != "." && e != ".." && Free(e, '/')
  }

  lemma ResolveSnoc(p: string, e: string)
    requires p != "" && Plain(e)
    ensures var rooted := p[0] == '/';
            Resolve(rooted, Split(p + "/" + e, '/')) == Resolve(rooted, Split(p, '/')) + [e]
  {
    SplitSnoc(p, '/', e);
    var elems := Split(p, '/') + [e];
    assert elems[..|elems| - 1] == Split(p, '/');
  }

  // Cleaning goes through a final plain element, below a plain parent.
  lemma CleanBelow(p: string, parent: string, e: string)
    requires p != "" && Plain(parent) && Plain(e)
    ensures Clean(p + "/" + parent + "/" + e) == Clean(p + "/" + parent) + "/" + e
  {
    var q := p + "/" + parent;
    ResolveSnoc(p, parent);
    ResolveSnoc(q, e);
    var rooted := p[0] == '/';
    assert q[0] == p[0] && (q + "/" + e)[0] == p[0];
    var st := Resolve(rooted, Split(q, '/'));
    JoinSnoc(st, '/', e);
    JoinNonEmpty(st, '/');
  }

  // The same, with the parent first in the path.
  lemma CleanBelowRoot(parent: string, e: string)
    requires Plain(parent) && Plain(e)
    ensures Clean(parent) == parent
    ensures Clean(parent + "/" + e) == parent + "/" + e
  {
    SplitFree(parent, '/');
    assert Resolve(false, [parent]) == [parent];
    ResolveSnoc(parent, e);
    JoinSnoc([parent], '/', e);
  }

  // Plain elements are all kept, after the root or without one.
  lemma {:induction false} ResolvePlain(rooted: bool, fields: seq<string>)
    requires forall i :: 0 <= i < |fields| ==> Plain(fields[i])
    ensures Resolve(rooted, fields) == fields && Resolve(rooted, [""] + fields) == fields
  {
    if fields != [] {
      var n := |fields| - 1;
      ResolvePlain(rooted, fields[..n]);
      assert ([""] + fields)[..n + 1] == [""] + fields[..n];
      assert fields == fields[..n] + [fields[n]];
    } else {
      assert Resolve(rooted, [""]) == Resolve(rooted, []) by { assert [""][..0] == []; }
    }
  }

  // ---- What cleaning keeps ----

  // Where an element leads from a directory, named from the root.
  function Enter(at: seq<string>, e: string): seq<string> {
    if e == "" || e == "." then at
    else if e == ".." then if at == [] then at else at[..|at| - 1]
    else at + [e]
  }

  function Walk(dir: seq<string>, elems: seq<string>): seq<string> {
    if elems == [] then dir else Enter(Walk(dir, elems[..|elems| - 1]), elems[|elems| - 1])
  }

  lemma {:induction false} WalkSnoc(dir: seq<string>, elems: seq<string>, e: string)
    ensures Walk(dir, elems + [e]) == Enter(Walk(dir, elems), e)
  {
    assert (elems + [e])[..|elems|] == elems;
  }

  // No element is left to resolve: ".." only at the start of a relative path.
  predicate Resolved(rooted: bool, elems: seq<string>) {
    && (forall i :: 0 <= i < |elems| ==> elems[i] != "" && elems[i] != ".")
    && (forall i :: 0 <= i < |elems| && elems[i] == ".." ==> !rooted && forall j :: 0 <= j < i ==> elems[j] == "..")
  }

  lemma {:induction false} PushKeepsMeaning(rooted: bool, st: seq<string>, e: string, dir: seq<string>)
    requires Resolved(rooted, st) && (rooted ==> dir == [])
    ensures Walk(dir, Push(rooted, st, e)) == Enter(Walk(dir, st), e)
  {
    WalkSnoc(dir, st, e);
    if st != [] {
      var front, last := st[..|st| - 1], st[|st| - 1];
      assert st == front + [last];
      WalkSnoc(dir, front, last);
    }
  }

  lemma PushResolves(rooted: bool, st: seq<string>, e: string)
    requires Resolved(rooted, st)
    ensures Resolved(rooted, Push(rooted, st, e))
  {
    if e == ".." && st != [] && st[|st| - 1] == ".." { assert !rooted; }
  }

  // Resolving leads to the same directory from everywhere, from the root for a
  // rooted path, and leaves nothing to resolve.
  lemma {:induction false} ResolveKeepsMeaning(rooted: bool, elems: seq<string>, dir: seq<string>)
    requires rooted ==> dir == []
    ensures Walk(dir, Resolve(rooted, elems)) == Walk(dir, elems)
    ensures Resolved(rooted, Resolve(rooted, elems))
  {
    if elems != [] {
      var front, e := elems[..|elems| - 1], elems[|elems| - 1];
      ResolveKeepsMeaning(rooted, front, dir);
      PushKeepsMeaning(rooted, Resolve(rooted, front), e, dir);
      PushResolves(rooted, Resolve(rooted, front), e);
    }
  }

  // What is resolved stays as it is.
  lemma {:induction false} ResolvedStays(rooted: bool, elems: seq<string>)
    requires Resolved(rooted, elems)
    ensures Resolve(rooted, elems) == elems
  {
    if elems != [] {
      var front := elems[..|elems| - 1];
      ResolvedStays(rooted, front);
      assert elems == front + [elems[|elems| - 1]];
    }
  }

  predicate Rooted(p: string) {
    p != "" && p[0] == '/'
  }

  // The directory that a path names, seen from a directory.
  function Leads(p: string, dir: seq<string>): seq<string> {
    Walk(if Rooted(p) then [] else dir, Split(p, '/'))
  }

  // An empty element in front changes nothing.
  lemma {:induction false} SkipFront(rooted: bool, dir: seq<string>, elems: seq<string>)
    ensures Walk(dir, [""] + elems) == Walk(dir, elems)
    ensures Resolve(rooted, [""] + elems) == Resolve(rooted, elems)
  {
    if elems == [] {
      assert [""] + elems == [] + [""] && ([] + [""])[..0] == [];
      assert Walk(dir, [] + [""]) == Enter(Walk(dir, []), "");
    } else {
      var front, e := elems[..|elems| - 1], elems[|elems| - 1];
      SkipFront(rooted, dir, front);
      assert ([""] + elems)[..|elems|] == [""] + front;
    }
  }

  lemma {:induction false} ResolveFree(rooted: bool, elems: seq<string>)
    requires forall i :: 0 <= i < |elems| ==> Free(elems[i], '/')
    ensures forall i :: 0 <= i < |Resolve(rooted, elems)| ==> Free(Resolve(rooted, elems)[i], '/')
  {
    if elems != [] { ResolveFree(rooted, elems[..|elems| - 1]); }
  }

  // What a cleaned path splits into.
  function CleanElems(rooted: bool, st: seq<string>): seq<string> {
    if rooted then [""] + (if st == [] then [""] else st) else if st == [] then ["."] else st
  }

  lemma CleanSplits(p: string)
    ensures var st := Resolve(Rooted(p), Split(p, '/'));
            && Rooted(Clean(p)) == Rooted(p) && Clean(p) != ""
            && Split(Clean(p), '/') == CleanElems(Rooted(p), st)
  {
    var rooted := Rooted(p);
    var st := Resolve(rooted, Split(p, '/'));
    SplitAllFree(p, '/');
    ResolveFree(rooted, Split(p, '/'));
    ResolveKeepsMeaning(rooted, Split(p, '/'), []);
    var body := Join(st, '/');
    if st == [] {
      SplitFree(".", '/');
    } else {
      SplitJoin(st, '/');
      assert st[0] != "" && body != "" && body[0] == st[0][0];
    }
    if rooted { assert ("/" + body)[1..] == body; }
  }

  // Cleaning keeps the directory that a path names, seen from anywhere.
  lemma CleanKeepsMeaning(p: string, dir: seq<string>)
    ensures Leads(Clean(p), dir) == Leads(p, dir)
  {
    var rooted := Rooted(p);
    var from := if rooted then [] else dir;
    var st := Resolve(rooted, Split(p, '/'));
    CleanSplits(p);
    ResolveKeepsMeaning(rooted, Split(p, '/'), from);
    SkipFront(rooted, from, if st == [] then [""] else st);
    SkipFront(rooted, from, []);
    assert [""] + [] == [""];
    WalkSnoc(from, [], ".");
    assert [] + ["."] == ["."];
  }

  // And a cleaned path is clean.
  lemma CleanIdempotent(p: string)
    ensures Clean(Clean(p)) == Clean(p)
  {
    var rooted := Rooted(p);
    var st := Resolve(rooted, Split(p, '/'));
    CleanSplits(p);
    ResolveKeepsMeaning(rooted, Split(p, '/'), []);
    ResolvedStays(rooted, st);
    SkipFront(rooted, [], if st == [] then [""] else st);
    SkipFront(rooted, [], []);
    assert [""] + [] == [""];
    assert Resolve(false, ["."]) == [] by { assert ["."][..0] == []; }
  }

  // A path of plain elements, below the root or relative.
  function PathOf(rooted: bool, fields: seq<string>): string {
    (if rooted then "/" else "") + Join(fields, '/')
  }

  // Cleaning leaves such a path as it is.
  lemma CleanPlain(rooted: bool, fields: seq<string>)
    requires fields != [] && forall i :: 0 <= i < |fields| ==> Plain(fields[i])
    ensures Clean(PathOf(rooted, fields)) == PathOf(rooted, fields) != ""
    ensures PathOf(rooted, fields)[0] == '/' <==> rooted
  {
    SplitJoin(fields, '/');
    ResolvePlain(rooted, fields);
    JoinStarts(fields);
    if rooted {
      var p := PathOf(true, fields);
      assert p[1..] == Join(fields, '/');
      assert Split(p, '/') == [""] + Split(p[1..], '/');
    } else {
      assert PathOf(false, fields) == Join(fields, '/');
    }
  }

  lemma JoinStarts(fields: seq<string>)
    requires fields != [] && Plain(fields[0])
    ensures Join(fields, '/') != "" && Join(fields, '/')[0] == fields[0][0] != '/'
  {
  }

  lemma PathSnoc(rooted: bool, fields: seq<string>, e: string)
    requires fields != []
    ensures PathOf(rooted, fields + [e]) == PathOf(rooted, fields) + "/" + e
  {
    JoinSnoc(fields, '/', e);
    assert PathOf(rooted, fields) + "/" + e == PathOf(rooted, []) + (Join(fields, '/') + "/" + e);
  }

  lemma JoinNonEmpty(fields: seq<string>, sep: char)
    requires fields != [] && fields[|fields| - 1] != ""
    ensures Join(fields, sep) != ""
  {
  }

  // Two plain elements in the same place give the same path only if equal.
  lemma CleanLastInjective(p: string, e: string, f: string)
    requires p != "" && Plain(e) && Plain(f)
    requires Clean(p + "/" + e) == Clean(p + "/" + f)
    ensures e == f
  {
    ResolveSnoc(p, e);
    ResolveSnoc(p, f);
    assert (p + "/" + e)[0] == p[0] && (p + "/" + f)[0] == p[0];
    var st := Resolve(p[0] == '/', Split(p, '/'));
    JoinNonEmpty(st + [e], '/');
    JoinNonEmpty(st + [f], '/');
    if st != [] {
      JoinSnoc(st, '/', e);
      JoinSnoc(st, '/', f);
    }
    var pre := if st == [] then "" else Join(st, '/') + "/";
    assert Join(st + [e], '/') == pre + e;
    assert Join(st + [f], '/') == pre + f;
    if p[0] == '/' {
      assert pre + e == ("/" + (pre + e))[1..] == ("/" + (pre + f))[1..] == pre + f;
    }
    assert e == (pre + e)[|pre|..] == (pre + f)[|pre|..] == f;
  }

  // The designer's disk path, and the target directory of the repository's pool.
  function DiskPath(base: string, repo: string, file: string, format: string): string {
    PathJoin([base, repo, MakeVolName(file, format)])
  }

  function PoolTarget(base: string, repo: string): string {
    PathJoin([base, Escape(repo)])
  }

  lemma PathJoin2(base: string, a: string)
    requires a != ""
    ensures PathJoin([base, a]) == if base == "" then Clean(a) else Clean(base + "/" + a)
  {
    assert [base, a][1..] == [a];
    assert PathJoin([a]) == Clean(a);
  }

  lemma PathJoin3(base: string, a: string, b: string)
    requires a != ""
    ensures PathJoin([base, a, b]) == if base == "" then Clean(a + "/" + b) else Clean(base + "/" + a + "/" + b)
  {
    assert [base, a, b][1..] == [a, b] && [a, b][1..] == [b];
    assert Join([a, b], '/') == a + "/" + b;
    assert base + "/" + (a + "/" + b) == base + "/" + a + "/" + b;
  }

  lemma VolNamePlain(file: string, format: string)
    requires file != "" && Free(format, '/')
    ensures Plain(MakeVolName(file, format))
  {
    var v := MakeVolName(file, format);
    assert Kept(v[0]);
    forall i | 0 <= i < |v| ensures v[i] != '/' {
      if i < |file| { assert v[i] == Escape(file)[i]; }
      else if i > |file| { assert v[i] == format[i - |file| - 1]; }
    }
  }

  // Below a base directory of plain elements the designer's path is the base, the
  // repository's name and the volume name, and the pool's target the base and
  // the repository's escaped name.
  lemma PathsExtendTheBase(rooted: bool, fields: seq<string>, repo: string, file: string, format: string)
    requires fields != [] && forall i :: 0 <= i < |fields| ==> Plain(fields[i])
    requires Plain(repo) && file != "" && Free(format, '/')
    ensures var base := PathOf(rooted, fields);
            && DiskPath(base, repo, file, format) == base + "/" + repo + "/" + MakeVolName(file, format)
            && PoolTarget(base, repo) == base + "/" + Escape(repo)
  {
    var base, v := PathOf(rooted, fields), MakeVolName(file, format);
    VolNamePlain(file, format);
    EscapePlain(repo);
    CleanPlain(rooted, fields);
    CleanPlain(rooted, fields + [repo]);
    CleanPlain(rooted, fields + [Escape(repo)]);
    PathSnoc(rooted, fields, repo);
    PathSnoc(rooted, fields, Escape(repo));
    PathJoin3(base, repo, v);
    PathJoin2(base, Escape(repo));
    CleanBelow(base, repo, v);
  }

  lemma EscapePlain(repo: string)
    requires repo != ""
    ensures Plain(Escape(repo))
  {
    assert Kept(Escape(repo)[0]);
    assert Free(Escape(repo), '/') by { assert forall i :: 0 <= i < |repo| ==> Kept(Escape(repo)[i]); }
  }

  lemma SameBefore(a: string, b: string, v: string)
    requires a + "/" + v == b + "/" + v
    ensures a == b
  {
    assert |a| == |b|;
    assert a == (a + "/" + v)[..|a|] == (b + "/" + v)[..|b|] == b;
  }

  // The designer points at the directory where the repository's pool keeps the
  // volume exactly when escaping leaves the repository name unchanged.
  lemma PathsAgreeExactly(base: string, repo: string, file: string, format: string)
    requires Plain(repo) && file != "" && Free(format, '/')
    ensures DiskPath(base, repo, file, format) == PoolTarget(base, repo) + "/" + MakeVolName(file, format)
       <==> Escape(repo) == repo
  {
    var v, er := MakeVolName(file, format), Escape(repo);
    VolNamePlain(file, format);
    EscapePlain(repo);
    PathJoin3(base, repo, v);
    PathJoin2(base, er);
    var dir := if base == "" then Clean(repo) else Clean(base + "/" + repo);
    if base == "" {
      CleanBelowRoot(repo, v);
      CleanBelowRoot(er, v);
    } else {
      CleanBelow(base, repo, v);
      if Clean(base + "/" + repo) == Clean(base + "/" + er) {
        CleanLastInjective(base, repo, er);
      }
    }
    assert DiskPath(base, repo, file, format) == dir + "/" + v;
    if dir + "/" + v == PoolTarget(base, repo) + "/" + v { SameBefore(dir, PoolTarget(base, repo), v); }
  }
}
