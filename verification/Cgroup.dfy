// The partition of a client process, read from the lines of its cgroup file.
module Cgroup {
  import opened Text

  // A line without two colons makes the source index out of range.
  datatype Partition = Found(path: string) | NotPresent | Panic

  predicate WellFormedLine(line: string) {
    |Split(line, ':')| >= 3
  }

  predicate Lists(line: string, controller: string) {
    |Split(line, ':')| >= 3 && controller in Split(Split(line, ':')[1], ',')
  }

  // The path on the last of the lines that list the controller.
  function Locate(lines: seq<string>, controller: string): Partition {
    if lines == [] then NotPresent
    else
      var last := lines[|lines| - 1];
      if Lists(last, controller) then Found(Split(last, ':')[2])
      else Locate(lines[..|lines| - 1], controller)
  }

  // Line i lists the controller and no later one does.
  predicate LastToList(lines: seq<string>, controller: string, i: int) {
    && 0 <= i < |lines| && Lists(lines[i], controller)
    && forall j :: i < j < |lines| ==> !Lists(lines[j], controller)
  }

  lemma {:induction false} LocateExactly(lines: seq<string>, controller: string)
    ensures Locate(lines, controller).NotPresent?
       <==> forall i :: 0 <= i < |lines| ==> !Lists(lines[i], controller)
    ensures forall i :: LastToList(lines, controller, i) ==>
              Locate(lines, controller) == Found(Split(lines[i], ':')[2])
  {
    if lines != [] {
      var n := |lines| - 1;
      LocateExactly(lines[..n], controller);
      assert forall i :: 0 <= i < n ==> lines[..n][i] == lines[i];
      forall i | LastToList(lines, controller, i)
        ensures Locate(lines, controller) == Found(Split(lines[i], ':')[2])
      {
        if i < n { assert LastToList(lines[..n], controller, i); }
      }
    }
  }

  ghost predicate Agrees(locations: map<string, string>, lines: seq<string>) {
    forall c :: Locate(lines, c) == if c in locations then Found(locations[c]) else NotPresent
  }

  // Stashing one more line, given its fields.
  lemma AgreesSnoc(before: map<string, string>, after: map<string, string>, lines: seq<string>, line: string)
    requires Agrees(before, lines) && WellFormedLine(line)
    requires forall c :: c in after <==> c in before || Lists(line, c)
    requires forall c :: c in after ==> after[c] == if Lists(line, c) then Split(line, ':')[2] else before[c]
    ensures Agrees(after, lines + [line])
  {
    assert (lines + [line])[..|lines|] == lines;
    forall c ensures Locate(lines + [line], c) == if c in after then Found(after[c]) else NotPresent {
      assert Locate(lines, c) == if c in before then Found(before[c]) else NotPresent;
    }
  }

  method GetResourcePartition(lines: seq<string>, controller: string) returns (r: Partition)
    ensures r.Panic? <==> exists i :: 0 <= i < |lines| && !WellFormedLine(lines[i])
    ensures !r.Panic? ==> r == Locate(lines, controller)
  {
    var locations: map<string, string> := map[];
    for i := 0 to |lines|
      invariant forall k :: 0 <= k < i ==> WellFormedLine(lines[k])
      invariant Agrees(locations, lines[..i])
    {
      var line := lines[i];
      var bits := Split(line, ':');
      if |bits| < 3 {
        assert !WellFormedLine(lines[i]);
        return Panic;
      }
      var path := bits[2];
      var controllers := Split(bits[1], ',');
      ghost var before := locations;
      for j := 0 to |controllers|
        invariant forall c :: c in locations <==> c in before || c in controllers[..j]
        invariant forall c :: c in locations ==> locations[c] == if c in controllers[..j] then path else before[c]
      {
        locations := locations[controllers[j] := path];
      }
      assert controllers[..|controllers|] == controllers;
      assert forall c :: Lists(line, c) <==> c in controllers;
      AgreesSnoc(before, locations, lines[..i], line);
      assert lines[..i] + [line] == lines[..i + 1];
    }
    assert lines[..|lines|] == lines;
    if controller in locations {
      r := Found(locations[controller]);
    } else {
      r := NotPresent;
    }
  }

  // ---- The printer of such files ----

  datatype Entry = Entry(hierarchy: string, controllers: seq<string>, path: string)

  predicate Printable(e: Entry) {
    && Free(e.hierarchy, ':') && Free(e.path, ':')
    && e.controllers != []
    && forall i :: 0 <= i < |e.controllers| ==> Free(e.controllers[i], ':') && Free(e.controllers[i], ',')
  }

  function PrintEntry(e: Entry): string {
    e.hierarchy + ":" + Join(e.controllers, ',') + ":" + e.path
  }

  function Print(entries: seq<Entry>): seq<string> {
    seq(|entries|, i requires 0 <= i < |entries| => PrintEntry(entries[i]))
  }

  lemma {:induction false} JoinFree(fields: seq<string>, sep: char, other: char)
    requires sep != other
    requires forall i :: 0 <= i < |fields| ==> Free(fields[i], other)
    ensures Free(Join(fields, sep), other)
  {
    if |fields| > 1 {
      JoinFree(fields[1..], sep, other);
    }
  }

  lemma ParsesBack(e: Entry)
    requires Printable(e)
    ensures Split(PrintEntry(e), ':') == [e.hierarchy, Join(e.controllers, ','), e.path]
    ensures Split(Join(e.controllers, ','), ',') == e.controllers
  {
    JoinFree(e.controllers, ',', ':');
    SplitJoin(e.controllers, ',');
    var fields := [e.hierarchy, Join(e.controllers, ','), e.path];
    SplitJoin(fields, ':');
    calc {
      Join(fields, ':');
      e.hierarchy + ":" + Join([Join(e.controllers, ','), e.path], ':');
      { assert Join([Join(e.controllers, ','), e.path], ':') == Join(e.controllers, ',') + ":" + e.path; }
      e.hierarchy + ":" + (Join(e.controllers, ',') + ":" + e.path);
      PrintEntry(e);
    }
  }

  predicate ListsEntry(e: Entry, controller: string) {
    controller in e.controllers
  }

  // No controller is on two lines.
  ghost predicate Unshared(entries: seq<Entry>) {
    forall i, j, c :: 0 <= i < j < |entries| && ListsEntry(entries[i], c) ==> !ListsEntry(entries[j], c)
  }

  lemma PrintedLine(e: Entry, controller: string)
    requires Printable(e)
    ensures WellFormedLine(PrintEntry(e))
    ensures Lists(PrintEntry(e), controller) <==> ListsEntry(e, controller)
    ensures Split(PrintEntry(e), ':')[2] == e.path
  {
    ParsesBack(e);
  }

  // Locating in a printed file inverts the printer: the path of the entry that
  // lists the controller, and an error exactly when no entry does.
  lemma {:induction false} LocateInvertsPrint(entries: seq<Entry>, controller: string)
    requires forall i :: 0 <= i < |entries| ==> Printable(entries[i])
    requires Unshared(entries)
    ensures Locate(Print(entries), controller).NotPresent?
       <==> forall i :: 0 <= i < |entries| ==> !ListsEntry(entries[i], controller)
    ensures !Locate(Print(entries), controller).Panic?
    ensures forall i :: 0 <= i < |entries| && ListsEntry(entries[i], controller)
              ==> Locate(Print(entries), controller) == Found(entries[i].path)
  {
    if entries != [] {
      var n := |entries| - 1;
      var front := entries[..n];
      assert Unshared(front) by {
        assert forall i :: 0 <= i < n ==> front[i] == entries[i];
      }
      LocateInvertsPrint(front, controller);
      PrintedLine(entries[n], controller);
      assert Print(entries)[..n] == Print(front);
      assert Print(entries)[n] == PrintEntry(entries[n]);
      assert forall i :: 0 <= i < n ==> front[i] == entries[i];
    }
  }

  // ---- The check of the client's scope ----

  predicate HasPrefix(s: string, prefix: string) {
    |prefix| <= |s| && s[..|prefix|] == prefix
  }

  predicate HasSuffix(s: string, suffix: string) {
    |suffix| <= |s| && s[|s| - |suffix|..] == suffix
  }

  predicate Accepted(file: string) {
    HasPrefix(file, "docker-") && HasSuffix(file, ".scope")
  }

  // Prefix and suffix of an accepted name cannot overlap, so the later slice is
  // in range; it starts at index 6 and so keeps the prefix's hyphen.
  lemma AcceptedScopeSlices(file: string)
    requires Accepted(file)
    ensures 6 <= |file| - 6
    ensures exists id: string :: file == "docker-" + id + ".scope" && file[6..|file| - 6] == "-" + id
  {
    var d := |file| - 6;
    assert file[d] == '.' by { assert file[d..][0] == '.'; }
    assert d >= 7 by {
      assert forall i :: 0 <= i < 7 ==> file[i] == file[..7][i] && "docker-"[i] != '.';
    }
    var id := file[7..d];
    assert file == file[..7] + id + file[d..];
    assert file[6..d] == "-" + id by { assert file[6] == file[..7][6] == '-'; }
  }
}
