/**
 The path reducer: `/./` and `/name/../` are taken out of a character buffer in place, from left to right,
 without changing where the path leads.
 */
module PathReducer {

  // ------------------------------------------------------------------ the reduction as a function

  predicate SlashDot(s: string, i: int) {
    0 <= i && i + 1 < |s| && s[i] == '/' && s[i + 1] == '.'
  }

  /** `/./` at i. */
  predicate Stay(s: string, i: int) {
    SlashDot(s, i) && i + 2 < |s| && s[i + 2] == '/'
  }

  /** `/../` at i. */
  predicate Up(s: string, i: int) {
    SlashDot(s, i) && i + 3 < |s| && s[i + 2] == '.' && s[i + 3] == '/'
  }

  /** strstr: the first `/.` from d on, or the end. */
  function Next(s: string, d: nat): (r: nat)
    requires d <= |s|
    ensures d <= r <= |s| && (r < |s| ==> SlashDot(s, r))
    ensures forall i :: d <= i < r ==> !SlashDot(s, i)
    decreases |s| - d
  {
    if d == |s| || SlashDot(s, d) then d else Next(s, d + 1)
  }

  /** Back to the slash or colon before the parent, or the beginning. */
  function Back(s: string, o: int): (r: int)
    requires o < |s|
    ensures r <= o && (o >= 0 ==> r >= 0) && (o < 0 ==> r == o)
    ensures forall i :: r < i <= o && 0 <= i ==> s[i] != '/' && s[i] != ':'
    ensures r > 0 ==> s[r] == '/' || s[r] == ':'
    decreases o
  {
    if o <= 0 || s[o] == '/' || s[o] == ':' then o else Back(s, o - 1)
  }

  /** Something other than `..` stands before the `/../` at r, and a slash before that. */
  predicate Removable(s: string, r: nat)
    requires r < |s|
  {
    var o := Back(s, r - 1);
    o >= 0 && s[o] == '/' && s[o + 1..r] != ".."
  }

  function Cut(s: string, from: nat, to: nat): string
    requires from <= to <= |s|
  {
    s[..from] + s[to..]
  }

  /** One turn of the loop, for the `/.` at r: what the path becomes, and where the search goes on. */
  function Turn(s: string, r: nat): (t: (string, nat))
    requires SlashDot(s, r)
    ensures t.1 <= |t.0| <= |s| && (|t.0| < |s| || (t.0 == s && t.1 > r))
  {
    if Stay(s, r) then (Cut(s, r + 1, r + 3), r)
    else if Up(s, r) then
      if Removable(s, r) then (Cut(s, Back(s, r - 1) + 1, r + 4), Back(s, r - 1)) else (s, r + 3)
    else (s, r + 2)
  }

  function Reduce(s: string, d: nat): string
    requires d <= |s|
    decreases |s|, |s| - d
  {
    var r := Next(s, d);
    if r == |s| then s
    else
      var t := Turn(s, r);
      Reduce(t.0, t.1)
  }

  // ------------------------------------------------------------------ where a path leads

  datatype Place = Place(absolute: bool, ups: nat, names: seq<string>)

  function Go(p: Place, segment: string): Place {
    if segment == "" || segment == "." then p
    else if segment == ".." then
      if p.names != [] then p.(names := p.names[..|p.names| - 1])
      else if p.absolute then p
      else p.(ups := p.ups + 1)
    else p.(names := p.names + [segment])
  }

  function Walk(p: Place, segments: seq<string>): Place
    decreases |segments|
  {
    if segments == [] then p else Walk(Go(p, segments[0]), segments[1..])
  }

  /** The segments between slashes. */
  function Split(s: string): (r: seq<string>)
    ensures r != []
  {
    if s == "" then [""]
    else if s[0] == '/' then [""] + Split(s[1..])
    else
      var more := Split(s[1..]);
      [[s[0]] + more[0]] + more[1..]
  }

  function Location(s: string): Place {
    Walk(Place(s != "" && s[0] == '/', 0, []), Split(s))
  }

  predicate NoEmptySegments(s: string) {
    forall i :: 0 <= i < |s| - 1 ==> !(s[i] == '/' && s[i + 1] == '/')
  }

  lemma {:induction false} SplitJoins(a: string, b: string)
    ensures Split(a + "/" + b) == Split(a) + Split(b)
  {
    var s := a + "/" + b;
    if a == "" {
      assert s[1..] == b;
    } else {
      assert s[1..] == a[1..] + "/" + b;
      SplitJoins(a[1..], b);
    }
  }

  lemma {:induction false} SplitOne(s: string)
    requires forall i :: 0 <= i < |s| ==> s[i] != '/'
    ensures Split(s) == [s]
  {
    if s != "" {
      SplitOne(s[1..]);
      assert [s[0]] + s[1..] == s;
    }
  }

  lemma {:induction false} WalkJoins(p: Place, a: seq<string>, b: seq<string>)
    ensures Walk(p, a + b) == Walk(Walk(p, a), b)
    decreases |a|
  {
    if a == [] {
      assert a + b == b;
    } else {
      assert (a + b)[1..] == a[1..] + b;
      WalkJoins(Go(p, a[0]), a[1..], b);
    }
  }

  /** Taking segments out that lead back to where they start from. */
  lemma Detour(a: string, middle: string, b: string)
    requires forall p :: Walk(p, Split(middle)) == p
    ensures Location(a + "/" + middle + "/" + b) == Location(a + "/" + b)
  {
    var s, t := a + "/" + middle + "/" + b, a + "/" + b;
    var start := Place(s[0] == '/', 0, []);
    assert s[0] == t[0];
    SplitJoins(a + "/" + middle, b);
    SplitJoins(a, middle);
    SplitJoins(a, b);
    WalkJoins(start, Split(a) + Split(middle), Split(b));
    WalkJoins(start, Split(a), Split(middle));
    WalkJoins(start, Split(a), Split(b));
  }

  lemma StayIsDetour(p: Place)
    ensures Walk(p, Split(".")) == p
  {
    SplitOne(".");
    assert Walk(p, ["."]) == Walk(Go(p, "."), []);
  }

  lemma UpIsDetour(p: Place, name: string)
    requires name !in {"", ".", ".."} && forall i :: 0 <= i < |name| ==> name[i] != '/'
    ensures Walk(p, Split(name + "/" + "..")) == p
  {
    SplitJoins(name, "..");
    SplitOne(name);
    SplitOne("..");
    assert Go(Go(p, name), "..") == p;
    assert [name] + [".."] == [name, ".."];
    assert Walk(p, [name, ".."]) == Walk(Go(p, name), [".."]) by {
      assert [name, ".."][1..] == [".."];
    }
    assert Walk(Go(p, name), [".."]) == Walk(Go(Go(p, name), ".."), []);
  }

  // ------------------------------------------------------------------ what has been passed is reduced

  /** No `/./` before d. */
  predicate StaysGone(s: string, d: nat) {
    forall i :: 0 <= i < d ==> !Stay(s, i)
  }

  /** No `/../` before d that follows a name without a colon which follows a slash. */
  predicate UpsGone(s: string, d: nat) {
    forall o, i :: 0 <= o < i < d && Up(s, i) && Parent(s, o, i) ==> s[o + 1..i] == ".."
  }

  predicate Parent(s: string, o: nat, i: nat) {
    o < i <= |s| && s[o] == '/' && forall k :: o < k < i ==> s[k] != '/' && s[k] != ':'
  }

  lemma NothingBetween(s: string, d: nat)
    requires d <= |s|
    ensures forall i :: d <= i < Next(s, d) ==> !Stay(s, i) && !Up(s, i)
  {
  }

  /** Cutting behind a slash moves nothing before it, and makes no new `/.` there. */
  lemma CutKeeps(s: string, o: nat, to: nat)
    requires o < to <= |s| && s[o] == '/'
    ensures var t := Cut(s, o + 1, to);
      && t[..o + 1] == s[..o + 1]
      && (forall i :: 0 <= i < o ==> (Stay(t, i) ==> Stay(s, i)) && (Up(t, i) ==> Up(s, i)))
  {
    var t := Cut(s, o + 1, to);
    assert t[..o + 1] == s[..o + 1];
    forall i | 0 <= i < o ensures (Stay(t, i) ==> Stay(s, i)) && (Up(t, i) ==> Up(s, i)) {
      assert t[i] == s[i] && t[i + 1] == s[i + 1] && t[o] == '/';
    }
  }

  lemma CutGone(s: string, d: nat, o: nat, to: nat)
    requires d <= |s| && o < to <= |s| && s[o] == '/' && o <= Next(s, d) && StaysGone(s, d)
    ensures StaysGone(Cut(s, o + 1, to), o)
    ensures UpsGone(s, d) ==> UpsGone(Cut(s, o + 1, to), o)
  {
    NothingBetween(s, d);
    CutKeeps(s, o, to);
    var t := Cut(s, o + 1, to);
    if UpsGone(s, d) {
      forall b, i | 0 <= b < i < o && Up(t, i) && Parent(t, b, i) ensures t[b + 1..i] == ".." {
        SameParent(s, t, o, b, i);
      }
    }
  }

  /** A parent in what two paths have in common is the same in both. */
  lemma SameParent(s: string, t: string, o: nat, b: nat, i: nat)
    requires o < |s| && o < |t| && s[..o + 1] == t[..o + 1] && b < i < o && Parent(t, b, i)
    ensures Parent(s, b, i) && t[b + 1..i] == s[b + 1..i]
  {
    assert forall k :: 0 <= k <= o ==> s[k] == s[..o + 1][k] == t[..o + 1][k] == t[k];
    assert t[b + 1..i] == t[..o + 1][b + 1..i] && s[b + 1..i] == s[..o + 1][b + 1..i];
  }

  /** A `/../` that is passed over stays for good reason. */
  lemma PassedUp(s: string, r: nat, o: nat)
    requires r < |s| && !Removable(s, r) && Parent(s, o, r)
    ensures s[o + 1..r] == ".."
  {
    assert Back(s, r - 1) == o;
  }

  /** What is passed over, besides the `/../` at r itself, is no `/./` and no `/../`. */
  lemma Passed(s: string, d: nat, r: nat, d': nat)
    requires d <= |s| && r == Next(s, d) < |s| && !Stay(s, r) && r < d' <= |s|
    requires d' == if Up(s, r) then r + 3 else r + 2
    ensures StaysGone(s, d) ==> StaysGone(s, d')
    ensures UpsGone(s, d) && (Up(s, r) ==> !Removable(s, r)) ==> UpsGone(s, d')
  {
    NothingBetween(s, d);
    assert forall i :: d <= i < d' && i != r ==> !Stay(s, i) && !Up(s, i);
    if UpsGone(s, d) && (Up(s, r) ==> !Removable(s, r)) {
      forall o, i | 0 <= o < i < d' && Up(s, i) && Parent(s, o, i) ensures s[o + 1..i] == ".." {
        if i == r {
          PassedUp(s, r, o);
        }
      }
    }
  }

  lemma TurnReduces(s: string, d: nat)
    requires d <= |s| && StaysGone(s, d) && Next(s, d) < |s|
    ensures var t := Turn(s, Next(s, d)); StaysGone(t.0, t.1)
    ensures var t := Turn(s, Next(s, d)); UpsGone(s, d) ==> UpsGone(t.0, t.1)
  {
    var r := Next(s, d);
    hide Next, Back, Parent, StaysGone, UpsGone;
    if Stay(s, r) {
      CutGone(s, d, r, r + 3);
    } else if Up(s, r) && Removable(s, r) {
      CutGone(s, d, Back(s, r - 1), r + 4);
    } else {
      Passed(s, d, r, if Up(s, r) then r + 3 else r + 2);
    }
  }

  /** What is left has no `/./`, and no name without a colon is undone by the `/../` behind it. */
  lemma {:induction false} ReducedIsReduced(s: string, d: nat)
    requires d <= |s| && StaysGone(s, d)
    ensures StaysGone(Reduce(s, d), |Reduce(s, d)|)
    ensures UpsGone(s, d) ==> UpsGone(Reduce(s, d), |Reduce(s, d)|)
    decreases |s|, |s| - d
  {
    var r := Next(s, d);
    if r == |s| {
      NothingBetween(s, d);
      hide Next, Parent;
    } else {
      TurnReduces(s, d);
      hide StaysGone, UpsGone, Turn;
      ReducedIsReduced(Turn(s, r).0, Turn(s, r).1);
    }
  }

  // ------------------------------------------------------------------ the location stays

  lemma CutStay(s: string, r: nat)
    requires Stay(s, r)
    ensures Location(Cut(s, r + 1, r + 3)) == Location(s)
  {
    var a, b := s[..r], s[r + 3..];
    forall p ensures Walk(p, Split(".")) == p {
      StayIsDetour(p);
    }
    assert s == a + "/" + "." + "/" + b;
    assert Cut(s, r + 1, r + 3) == a + "/" + b;
    Detour(a, ".", b);
  }

  lemma NotDot(s: string, o: nat, r: nat)
    requires o + 1 < r < |s| && s[o] == '/' && s[r] == '/' && !Stay(s, o)
    ensures s[o + 1..r] != "."
  {
    assert s[o + 1] == s[o + 1..r][0];
  }

  /** The name before the `/../` that is about to be removed is the empty one, between two slashes. */
  predicate EmptyParent(s: string, r: nat) {
    Up(s, r) && Removable(s, r) && r == Back(s, r - 1) + 1
  }

  lemma CutUp(s: string, r: nat)
    requires Up(s, r) && Removable(s, r) && !EmptyParent(s, r) && StaysGone(s, r)
    ensures Location(Cut(s, Back(s, r - 1) + 1, r + 4)) == Location(s)
  {
    var o := Back(s, r - 1);
    var a, name, b := s[..o], s[o + 1..r], s[r + 4..];
    assert name != "" by {
      assert r != o + 1;
    }
    assert !Stay(s, o);
    NotDot(s, o, r);
    forall p ensures Walk(p, Split(name + "/" + "..")) == p {
      UpIsDetour(p, name);
    }
    assert s == a + "/" + (name + "/" + "..") + "/" + b;
    assert Cut(s, o + 1, r + 4) == a + "/" + b;
    Detour(a, name + "/" + "..", b);
  }

  lemma CutNoEmpty(s: string, o: nat, to: nat)
    requires o < to <= |s| && s[o] == '/' && s[to - 1] == '/' && NoEmptySegments(s)
    ensures NoEmptySegments(Cut(s, o + 1, to))
  {
    var t := Cut(s, o + 1, to);
    forall i | 0 <= i < |t| - 1 ensures !(t[i] == '/' && t[i + 1] == '/') {
      if i > o {
        assert t[i] == s[i - o - 1 + to];
      }
    }
  }

  lemma TurnLeadsThere(s: string, r: nat)
    requires SlashDot(s, r) && StaysGone(s, r) && !EmptyParent(s, r)
    ensures Location(Turn(s, r).0) == Location(s)
  {
    hide Location, StaysGone;
    if Stay(s, r) {
      CutStay(s, r);
    } else if Up(s, r) && Removable(s, r) {
      CutUp(s, r);
    }
  }

  // ------------------------------------------------------------------ empty names

  predicate Relative(s: string) {
    s == "" || s[0] != '/'
  }

  /** How far down a relative path leads. */
  function Depth(p: Place): int {
    |p.names| - p.ups
  }

  function Descent(segments: seq<string>): int {
    if segments == [] then 0
    else Descent(segments[1..]) + if segments[0] in {"", "."} then 0 else if segments[0] == ".." then -1 else 1
  }

  lemma {:induction false} WalkDescends(p: Place, segments: seq<string>)
    requires !p.absolute
    ensures !Walk(p, segments).absolute && Depth(Walk(p, segments)) == Depth(p) + Descent(segments)
    decreases |segments|
  {
    if segments != [] {
      WalkDescends(Go(p, segments[0]), segments[1..]);
    }
  }

  lemma {:induction false} DescentJoins(a: seq<string>, b: seq<string>)
    ensures Descent(a + b) == Descent(a) + Descent(b)
    decreases |a|
  {
    if a == [] {
      assert a + b == b;
    } else {
      assert (a + b)[1..] == a[1..] + b;
      DescentJoins(a[1..], b);
    }
  }

  /** Removing an empty name together with `..` loses a step up. */
  lemma EmptyParentMoves(s: string, r: nat)
    requires EmptyParent(s, r) && Relative(s)
    ensures Relative(Turn(s, r).0) && Depth(Location(Turn(s, r).0)) == Depth(Location(s)) + 1
  {
    var o := Back(s, r - 1);
    var a, b := s[..o], s[r + 4..];
    var t := Turn(s, r).0;
    assert s == (a + "/" + "") + "/" + ".." + "/" + b;
    assert t == a + "/" + b && t[0] == s[0];
    SplitJoins((a + "/" + "") + "/" + "..", b);
    SplitJoins(a + "/" + "", "..");
    SplitJoins(a, "");
    SplitJoins(a, b);
    SplitOne("..");
    assert Split("") == [""];
    var start := Place(false, 0, []);
    WalkDescends(start, Split(s));
    WalkDescends(start, Split(t));
    hide Split, Walk, Turn, EmptyParent;
    DescentJoins(Split(a) + [""] + [".."], Split(b));
    DescentJoins(Split(a) + [""], [".."]);
    DescentJoins(Split(a), [""]);
    DescentJoins(Split(a), Split(b));
  }

  /** One turn changes where a relative path leads exactly when it takes the empty name for the parent. */
  lemma TurnMovesIffEmptyParent(s: string, r: nat)
    requires SlashDot(s, r) && StaysGone(s, r) && Relative(s)
    ensures Location(Turn(s, r).0) != Location(s) <==> EmptyParent(s, r)
  {
    if EmptyParent(s, r) {
      EmptyParentMoves(s, r);
    } else {
      TurnLeadsThere(s, r);
    }
  }

  /** How often the reduction takes the empty name for the parent. */
  function EmptyParents(s: string, d: nat): nat
    requires d <= |s|
    decreases |s|, |s| - d
  {
    var r := Next(s, d);
    if r == |s| then 0
    else
      var t := Turn(s, r);
      (if EmptyParent(s, r) then 1 else 0) + EmptyParents(t.0, t.1)
  }

  /** A path leads where it led if no empty name was ever taken for a parent. */
  lemma {:induction false} ReducedLeadsThere(s: string, d: nat)
    requires d <= |s| && StaysGone(s, d) && EmptyParents(s, d) == 0
    ensures Location(Reduce(s, d)) == Location(s)
    decreases |s|, |s| - d
  {
    var r := Next(s, d);
    if r < |s| {
      TurnReduces(s, d);
      NothingBetween(s, d);
      TurnLeadsThere(s, r);
      hide StaysGone, Location, Turn;
      ReducedLeadsThere(Turn(s, r).0, Turn(s, r).1);
    }
  }

  lemma TurnRelative(s: string, r: nat)
    requires SlashDot(s, r) && Relative(s)
    ensures Relative(Turn(s, r).0)
  {
  }

  lemma {:induction false} ReducedDescends(s: string, d: nat)
    requires d <= |s| && StaysGone(s, d) && Relative(s)
    ensures Depth(Location(Reduce(s, d))) == Depth(Location(s)) + EmptyParents(s, d)
    decreases |s|, |s| - d
  {
    var r := Next(s, d);
    if r < |s| {
      TurnReduces(s, d);
      NothingBetween(s, d);
      TurnRelative(s, r);
      if EmptyParent(s, r) {
        EmptyParentMoves(s, r);
      } else {
        TurnLeadsThere(s, r);
      }
      hide StaysGone, Location, Turn, EmptyParent, Depth;
      ReducedDescends(Turn(s, r).0, Turn(s, r).1);
    }
  }

  /** For a relative path that is the exact condition. */
  lemma RelativeLeadsThereIff(s: string)
    requires Relative(s)
    ensures Location(Reduce(s, 0)) == Location(s) <==> EmptyParents(s, 0) == 0
  {
    ReducedDescends(s, 0);
    if EmptyParents(s, 0) == 0 {
      ReducedLeadsThere(s, 0);
    }
  }

  lemma TurnNoEmpty(s: string, r: nat)
    requires SlashDot(s, r) && NoEmptySegments(s)
    ensures NoEmptySegments(Turn(s, r).0) && !EmptyParent(s, r)
  {
    if Stay(s, r) {
      CutNoEmpty(s, r, r + 3);
    } else if Up(s, r) && Removable(s, r) {
      CutNoEmpty(s, Back(s, r - 1), r + 4);
    }
  }

  /** A path without empty segments never meets one. */
  lemma {:induction false} NoEmptyParents(s: string, d: nat)
    requires d <= |s| && NoEmptySegments(s)
    ensures EmptyParents(s, d) == 0
    decreases |s|, |s| - d
  {
    var r := Next(s, d);
    if r < |s| {
      TurnNoEmpty(s, r);
      hide NoEmptySegments, Turn;
      NoEmptyParents(Turn(s, r).0, Turn(s, r).1);
    }
  }

  /** An example: the empty name is taken for the parent, and the path leads elsewhere. */
  lemma EmptySegmentMisleads()
    ensures Reduce("a//../b", 0) == "a/b" && EmptyParents("a//../b", 0) == 1
    ensures Location("a//../b") == Place(false, 0, ["b"])
    ensures Location("a/b") == Place(false, 0, ["a", "b"])
  {
    EmptySegmentLocation();
    hide Location;
    assert Next("a//../b", 0) == 2;
    assert Back("a//../b", 1) == 1 && Cut("a//../b", 2, 6) == "a/b";
    assert Removable("a//../b", 2);
    assert Turn("a//../b", 2) == ("a/b", 1);
    assert Next("a/b", 1) == 3;
  }

  lemma EmptySegmentSplit()
    ensures Split("a//../b") == ["a"] + ([""] + ([".."] + ["b"])) && Split("a/b") == ["a"] + ["b"]
  {
    SplitOne("a");
    SplitOne("..");
    SplitOne("b");
    assert Split("") == [""];
    hide Split;
    SplitJoins("a", "/../b");
    SplitJoins("", "../b");
    SplitJoins("..", "b");
    SplitJoins("a", "b");
    assert "a" + "/" + "/../b" == "a//../b" && "" + "/" + "../b" == "/../b" && ".." + "/" + "b" == "../b";
    assert "a" + "/" + "b" == "a/b";
  }

  lemma EmptySegmentLocation()
    ensures Location("a//../b") == Place(false, 0, ["b"])
    ensures Location("a/b") == Place(false, 0, ["a", "b"])
  {
    EmptySegmentSplit();
    hide Walk, Split;
    var p, a := Place(false, 0, []), Place(false, 0, ["a"]);
    assert Go(p, "a") == a && Go(a, "") == a && Go(a, "..") == p;
    assert Go(p, "b") == Place(false, 0, ["b"]) && Go(a, "b") == Place(false, 0, ["a", "b"]);
    hide Go;
    WalkJoins(p, ["a"], [""] + ([".."] + ["b"]));
    WalkJoins(a, [""], [".."] + ["b"]);
    WalkJoins(a, [".."], ["b"]);
    WalkJoins(p, ["a"], ["b"]);
    WalkOne(p, "a");
    WalkOne(a, "");
    WalkOne(a, "..");
    WalkOne(p, "b");
    WalkOne(a, "b");
  }

  lemma WalkOne(p: Place, segment: string)
    ensures Walk(p, [segment]) == Go(p, segment)
  {
    assert Walk(p, [segment]) == Walk(Go(p, segment), []);
  }

  // ------------------------------------------------------------------ the loop over the buffer

  /** The zero-terminated string in a buffer. */
  ghost predicate Holds(buf: array<char>, n: nat)
    reads buf
  {
    n < buf.Length && buf[n] == '\0' && forall i :: 0 <= i < n ==> buf[i] != '\0'
  }

  /** strstr(d, "/.") */
  method FindSlashDot(buf: array<char>, n: nat, d: nat) returns (r: nat)
    requires Holds(buf, n) && d <= n
    ensures r == Next(buf[..n], d)
  {
    r := d;
    while r < n && !(buf[r] == '/' && buf[r + 1] == '.')
      invariant d <= r <= n && Next(buf[..n], d) == Next(buf[..n], r)
    {
      r := r + 1;
    }
  }

  /** memmove of the tail, terminator included, down to `to`. */
  method MoveTail(buf: array<char>, n: nat, to: nat, from: nat)
    requires Holds(buf, n) && to <= from <= n
    modifies buf
    ensures Holds(buf, n - (from - to))
    ensures buf[..n - (from - to)] == Cut(old(buf[..n]), to, from)
  {
    hide Cut;
    var i := 0;
    while i < n + 1 - from
      invariant i <= n + 1 - from
      invariant forall k :: 0 <= k < to ==> buf[k] == old(buf[k])
      invariant forall k :: to <= k < to + i ==> buf[k] == old(buf[k + (from - to)])
      invariant forall k :: to + i <= k < buf.Length ==> buf[k] == old(buf[k])
    {
      buf[to + i] := buf[from + i];
      i := i + 1;
    }
    TailMoved(old(buf[..]), buf[..], n, to, from);
  }

  lemma TailMoved(before: seq<char>, after: seq<char>, n: nat, to: nat, from: nat)
    requires to <= from <= n < |before| == |after|
    requires forall k :: 0 <= k < to ==> after[k] == before[k]
    requires forall k :: to <= k <= n - (from - to) ==> after[k] == before[k + (from - to)]
    ensures after[..n - (from - to)] == Cut(before[..n], to, from)
    ensures after[n - (from - to)] == before[n]
    ensures forall i :: 0 <= i < n - (from - to) ==> after[i] in before[..n]
  {
  }

  /** From the slash at r back to the one before its parent, or a colon, or the beginning. */
  method FindParent(buf: array<char>, n: nat, r: nat) returns (o: int)
    requires Holds(buf, n) && r < n
    ensures o == Back(buf[..n], r - 1)
  {
    o := r - 1;
    while o > 0 && buf[o] != '/' && buf[o] != ':'
      invariant o < r && (r > 0 ==> o >= 0) && Back(buf[..n], o) == Back(buf[..n], r - 1)
    {
      o := o - 1;
    }
  }

  lemma TurnCases(s: string, r: nat)
    requires SlashDot(s, r)
    ensures Stay(s, r) ==> Turn(s, r) == (Cut(s, r + 1, r + 3), r)
    ensures Up(s, r) ==>
      var o := Back(s, r - 1);
      Turn(s, r) == if o >= 0 && s[o] == '/' && s[o + 1..r] != ".." then (Cut(s, o + 1, r + 4), o) else (s, r + 3)
    ensures !Stay(s, r) && !Up(s, r) ==> Turn(s, r) == (s, r + 2)
  {
    hide Back, Cut;
  }

  method TakeTurn(buf: array<char>, n: nat, r: nat) returns (m: nat, d: nat)
    requires Holds(buf, n) && SlashDot(buf[..n], r)
    modifies buf
    ensures d <= m <= n && Holds(buf, m) && (buf[..m], d) == Turn(old(buf[..n]), r)
  {
    hide Turn, Removable, Back, Cut, Next;
    m, d := n, r + 2;
    TurnCases(buf[..n], r);
    if buf[r + 2] == '/' {
      MoveTail(buf, n, r + 1, r + 3);
      m, d := n - 2, r;
    } else if buf[r + 2] == '.' && buf[r + 3] == '/' {
      m, d := TakeUp(buf, n, r);
    }
  }

  /** The turn at a `/../`: the parent goes, if it is one. */
  method TakeUp(buf: array<char>, n: nat, r: nat) returns (m: nat, d: nat)
    requires Holds(buf, n) && Up(buf[..n], r)
    modifies buf
    ensures d <= m <= n && Holds(buf, m) && (buf[..m], d) == Turn(old(buf[..n]), r)
  {
    hide Turn, Removable, Cut, Next;
    ghost var s := buf[..n];
    TurnCases(s, r);
    var o := FindParent(buf, n, r);
    if o >= 0 && buf[o] == '/' {
      DotsBefore(s, o, r);
    }
    if o >= 0 && buf[o] == '/' && !(buf[o + 1] == '.' && buf[o + 2] == '.' && buf[o + 3] == '/') {
      MoveTail(buf, n, o + 1, r + 4);
      m, d := n - (r + 3 - o), o;
    } else {
      m, d := n, r + 3;
    }
  }

  /** strncmp(o + 1, "../", 3) compares the parent with `..`. */
  lemma DotsBefore(s: string, o: nat, r: nat)
    requires o < r && r + 3 < |s| && s[o] == '/' && s[r] == '/' && forall i :: o < i < r ==> s[i] != '/'
    ensures s[o + 1..r] == ".." <==> s[o + 1] == '.' && s[o + 2] == '.' && s[o + 3] == '/'
  {
    var name := s[o + 1..r];
    assert forall i :: 0 <= i < |name| ==> name[i] == s[o + 1 + i];
  }

  /** The reduction loop: the buffer ends up holding the reduced path. */
  method ReducePath(buf: array<char>, n: nat) returns (m: nat)
    requires Holds(buf, n)
    modifies buf
    ensures m <= n && Holds(buf, m) && buf[..m] == Reduce(old(buf[..n]), 0)
  {
    m := n;
    var d: nat := 0;
    hide Turn;
    while true
      invariant d <= m <= n && Holds(buf, m)
      invariant Reduce(buf[..m], d) == Reduce(old(buf[..n]), 0)
      decreases m, m - d
    {
      var r := FindSlashDot(buf, m, d);
      if r == m {
        break;
      }
      m, d := TakeTurn(buf, m, r);
    }
  }

  /** What a caller gets: the same place, and nothing left to reduce. */
  method ReduceWhole(buf: array<char>, n: nat) returns (m: nat)
    requires Holds(buf, n)
    modifies buf
    ensures m <= n && Holds(buf, m)
    ensures EmptyParents(old(buf[..n]), 0) == 0 ==> Location(buf[..m]) == Location(old(buf[..n]))
    ensures Relative(old(buf[..n])) ==>
      (Location(buf[..m]) == Location(old(buf[..n])) <==> EmptyParents(old(buf[..n]), 0) == 0)
    ensures NoEmptySegments(old(buf[..n])) ==> EmptyParents(old(buf[..n]), 0) == 0
    ensures forall i :: 0 <= i < m ==> !Stay(buf[..m], i)
    ensures UpsGone(buf[..m], m)
  {
    ghost var s := buf[..n];
    m := ReducePath(buf, n);
    ReducedIsReduced(s, 0);
    if EmptyParents(s, 0) == 0 {
      ReducedLeadsThere(s, 0);
    }
    if Relative(s) {
      RelativeLeadsThereIff(s);
    }
    if NoEmptySegments(s) {
      NoEmptyParents(s, 0);
    }
  }
}
