/**
 The streaming JSON writer: calls that keep an indent level, a sibling counter and a stack of counters, against
 a recursive printer of the tree the calls describe and a reader that gets the tree back.
 */
module JsonOutput {
  import opened MessageStates

  datatype Value = Str(s: string) | Num(n: int) | Obj(members: Members)

  datatype Members = Nil | Member(name: string, value: Value, rest: Members)

  // ------------------------------------------------------------------ the recursive printer

  function Indent(depth: int): string {
    if depth <= 0 then "" else "\t" + Indent(depth - 1)
  }

  /** One tab per level. */
  lemma {:induction false} IndentIsTabs(depth: int)
    ensures Indent(depth) == seq(if depth < 0 then 0 else depth, _ => '\t')
  {
    if depth > 0 {
      IndentIsTabs(depth - 1);
    }
  }

  function Digits(n: nat): (r: string)
    ensures r != "" && '0' <= r[0] <= '9'
  {
    var d := [('0' as int + n % 10) as char];
    if n < 10 then d else Digits(n / 10) + d
  }

  function Decimal(n: int): (r: string)
    ensures r != ""
  {
    if n < 0 then "-" + Digits(-n) else Digits(n)
  }

  function Quoted(s: string): string {
    "\"" + s + "\""
  }

  function PrintValue(v: Value, depth: nat): string {
    match v
    case Str(s) => Quoted(s)
    case Num(n) => Decimal(n)
    case Obj(ms) => "{\n" + PrintMembers(ms, depth + 1) + (if ms == Nil then "" else "\n") + Indent(depth) + "}"
  }

  function PrintMembers(ms: Members, depth: nat): string {
    match ms
    case Nil => ""
    case Member(name, value, rest) =>
      Indent(depth) + Quoted(name) + ": " + PrintValue(value, depth)
      + if rest == Nil then "" else ",\n" + PrintMembers(rest, depth)
  }

  // ------------------------------------------------------------------ the calls

  datatype Call = AddString(name: string, s: string) | AddInt(name: string, n: int) | Push(name: string) | Pop

  /** The calls that write a tree. */
  function Calls(ms: Members): seq<Call> {
    match ms
    case Nil => []
    case Member(name, Str(s), rest) => [AddString(name, s)] + Calls(rest)
    case Member(name, Num(n), rest) => [AddInt(name, n)] + Calls(rest)
    case Member(name, Obj(inner), rest) => [Push(name)] + Calls(inner) + [Pop] + Calls(rest)
  }

  /** Every level that is pushed is popped, and none that is not. */
  predicate WellNested(calls: seq<Call>, open: nat) {
    if calls == [] then open == 0
    else match calls[0]
      case Push(_) => WellNested(calls[1..], open + 1)
      case Pop => open > 0 && WellNested(calls[1..], open - 1)
      case _ => WellNested(calls[1..], open)
  }

  /** The tree that calls describe up to the pop that closes their level, and the calls after it. */
  function Tree(calls: seq<Call>): (r: (Members, seq<Call>))
    ensures |r.1| <= |calls|
    decreases |calls|
  {
    if calls == [] || calls[0].Pop? then (Nil, calls)
    else if calls[0].Push? then
      var (inner, after) := Tree(calls[1..]);
      if after == [] then (Member(calls[0].name, Obj(inner), Nil), [])
      else
        var (rest, last) := Tree(after[1..]);
        (Member(calls[0].name, Obj(inner), rest), last)
    else
      var (rest, last) := Tree(calls[1..]);
      (Member(calls[0].name, if calls[0].AddInt? then Num(calls[0].n) else Str(calls[0].s), rest), last)
  }

  lemma Regroup<T>(a: seq<T>, b: seq<T>, c: seq<T>, d: seq<T>, e: seq<T>)
    ensures a + (b + (c + (d + e))) == a + b + c + d + e
  {
  }

  /** Every well-nested sequence of calls writes a tree. */
  /** A level opened, its members, its end and what follows it. */
  lemma TreeOfLevel(calls: seq<Call>, members: Members, rest: seq<Call>, more: Members, left: seq<Call>)
    requires calls != [] && calls[0].Push? && Tree(calls[1..]) == (members, rest) && rest != [] && rest[0] == Pop
    requires Tree(rest[1..]) == (more, left)
    requires calls[1..] == Calls(members) + rest && rest[1..] == Calls(more) + left
    ensures Tree(calls) == (Member(calls[0].name, Obj(members), more), left) && calls == Calls(Tree(calls).0) + left
  {
    assert rest == [Pop] + rest[1..];
    Regroup([calls[0]], Calls(members), [Pop], Calls(more), left);
    assert calls == [calls[0]] + calls[1..];
  }

  lemma {:induction false} WellNestedTree(calls: seq<Call>, open: nat)
    requires WellNested(calls, open)
    ensures var r := Tree(calls);
      && calls == Calls(r.0) + r.1
      && (r.1 == [] <==> open == 0) && (r.1 != [] ==> r.1[0] == Pop)
      && WellNested(r.1, open)
    decreases |calls|
  {
    if calls == [] || calls[0].Pop? {
    } else if calls[0].Push? {
      var inner := Tree(calls[1..]);
      WellNestedTree(calls[1..], open + 1);
      assert inner.1 == [Pop] + inner.1[1..];
      var rest := Tree(inner.1[1..]);
      WellNestedTree(inner.1[1..], open);
      TreeOfLevel(calls, inner.0, inner.1, rest.0, rest.1);
    } else {
      var rest := Tree(calls[1..]);
      WellNestedTree(calls[1..], open);
      assert calls == [calls[0]] + calls[1..];
      assert calls == ([calls[0]] + Calls(rest.0)) + rest.1;
    }
  }

  // ------------------------------------------------------------------ what each call does

  datatype Writer = Writer(out: string, indent: int, siblings: nat, stack: seq<nat>)

  function Separator(w: Writer): string {
    (if w.siblings > 0 then ",\n" else "") + Indent(w.indent)
  }

  function Started(w: Writer): Writer {
    Writer(w.out + "{\n", 1, 0, [])
  }

  function Added(w: Writer, name: string, text: string): Writer {
    w.(out := w.out + Separator(w) + Quoted(name) + ": " + text, siblings := w.siblings + 1)
  }

  function Pushed(w: Writer, name: string): Writer {
    Writer(w.out + Separator(w) + Quoted(name) + ": {\n", w.indent + 1, 0, w.stack + [w.siblings])
  }

  function Popped(w: Writer): Writer
    requires w.stack != []
  {
    var last := |w.stack| - 1;
    Writer(w.out + (if w.siblings > 0 then "\n" else "") + Indent(w.indent - 1) + "}",
           w.indent - 1, w.stack[last] + 1, w.stack[..last])
  }

  function Finished(w: Writer): Writer {
    w.(out := w.out + (if w.siblings > 0 then "\n" else "") + Indent(w.indent - 1) + "}", indent := w.indent - 1)
  }

  /** A pop without a level open is refused by the writer's assertions. */
  function Apply(w: Writer, call: Call): Writer
    requires call.Pop? ==> w.stack != []
  {
    match call
    case AddString(name, s) => Added(w, name, Quoted(s))
    case AddInt(name, n) => Added(w, name, Decimal(n))
    case Push(name) => Pushed(w, name)
    case Pop => Popped(w)
  }

  function Write(w: Writer, calls: seq<Call>): Writer
    requires WellNested(calls, |w.stack|)
    decreases |calls|
  {
    if calls == [] then w else Write(Apply(w, calls[0]), calls[1..])
  }

  // ------------------------------------------------------------------ the writer against the printer

  function Count(ms: Members): nat {
    if ms == Nil then 0 else 1 + Count(ms.rest)
  }

  /** What writing the members adds to the output. */
  function Body(ms: Members, w: Writer): string
    requires w.indent >= 0
  {
    if ms == Nil then "" else (if w.siblings > 0 then ",\n" else "") + PrintMembers(ms, w.indent)
  }

  function Wrote(ms: Members, w: Writer): Writer
    requires w.indent >= 0
  {
    w.(out := w.out + Body(ms, w), siblings := w.siblings + Count(ms))
  }

  lemma Reassociate(out: string, a: string, b: string, c: string, d: string, e: string, f: string)
    ensures out + (a + (b + c + d + e + f)) == (out + (a + b) + c + d + e) + f
  {
  }

  lemma OneMore(ms: Members, w: Writer, w1: Writer)
    requires ms.Member? && w.indent >= 0
    requires w1 == Added(w, ms.name, PrintValue(ms.value, w.indent))
    ensures Wrote(ms.rest, w1) == Wrote(ms, w)
  {
    var comma := if w.siblings > 0 then ",\n" else "";
    var text := PrintValue(ms.value, w.indent);
    var more := if ms.rest == Nil then "" else ",\n" + PrintMembers(ms.rest, w.indent);
    Reassociate(w.out, comma, Indent(w.indent), Quoted(ms.name), ": ", text, more);
    assert PrintMembers(ms, w.indent) == Indent(w.indent) + Quoted(ms.name) + ": " + text + more;
    assert Body(ms.rest, w1) == more;
    assert w1.out == w.out + (comma + Indent(w.indent)) + Quoted(ms.name) + ": " + text by {
      hide PrintValue, Indent, Quoted;
    }
    hide PrintMembers, PrintValue, Indent, Quoted;
  }

  lemma ReassociateObject(
      out: string, sep: string, name: string, body: string, closing: string, line: string, tabs: string)
    requires closing == line + tabs + "}"
    ensures ((out + sep + name + ": {\n") + body) + line + tabs + "}"
         == out + sep + name + ": " + ("{\n" + body + line + tabs + "}")
  {
    assert ": {\n" == ": " + "{\n";
    assert (out + sep + name + ": {\n") == (out + sep + name + ": ") + "{\n";
  }

  /** Pushing, writing the members of an object and popping adds it as one sibling. */
  lemma OneObject(name: string, inner: Members, w: Writer)
    requires w.indent >= 0
    ensures var w1 := Wrote(inner, Pushed(w, name));
      w1.stack != [] && Popped(w1) == Added(w, name, PrintValue(Obj(inner), w.indent))
  {
    var w0 := Pushed(w, name);
    var w1 := Wrote(inner, w0);
    var line := if inner == Nil then "" else "\n";
    var tabs := Indent(w.indent);
    assert w1.siblings > 0 <==> inner != Nil;
    ReassociateObject(w.out, Separator(w), Quoted(name), Body(inner, w0), line + tabs + "}", line, tabs);
    assert Popped(w1).stack == w.stack;
    assert PrintValue(Obj(inner), w.indent) == "{\n" + Body(inner, w0) + line + tabs + "}";
    hide PrintValue, PrintMembers, Quoted, Indent, Separator, Body;
  }

  lemma WriteStep(w: Writer, call: Call, more: seq<Call>)
    requires call.Pop? ==> w.stack != []
    requires WellNested(more, |Apply(w, call).stack|)
    ensures WellNested([call] + more, |w.stack|)
    ensures Write(w, [call] + more) == Write(Apply(w, call), more)
  {
    assert ([call] + more)[1..] == more;
  }

  /** Writing the calls of a tree adds the printed tree, whatever is written next. */
  lemma {:induction false} WritesTree(ms: Members, w: Writer, tail: seq<Call>)
    requires w.indent >= 0 && WellNested(tail, |w.stack|)
    ensures WellNested(Calls(ms) + tail, |w.stack|)
    ensures Write(w, Calls(ms) + tail) == Write(Wrote(ms, w), tail)
    decreases ms
  {
    if ms == Nil {
      assert Calls(ms) + tail == tail;
      assert w.out + "" == w.out;
    } else if ms.value.Obj? {
      WritesObject(ms, w, tail);
    } else {
      var call := Calls(ms)[0];
      assert Calls(ms) + tail == [call] + (Calls(ms.rest) + tail);
      var w1 := Apply(w, call);
      OneMore(ms, w, w1);
      hide Wrote, PrintValue;
      WritesTree(ms.rest, w1, tail);
      hide Write, WellNested, Apply;
      WriteStep(w, call, Calls(ms.rest) + tail);
    }
  }

  lemma CallsOfObject(ms: Members, tail: seq<Call>)
    requires ms.Member? && ms.value.Obj?
    ensures Calls(ms) + tail == [Push(ms.name)] + (Calls(ms.value.members) + ([Pop] + (Calls(ms.rest) + tail)))
  {
    Regroup([Push(ms.name)], Calls(ms.value.members), [Pop], Calls(ms.rest), tail);
  }

  lemma {:induction false} WritesObject(ms: Members, w: Writer, tail: seq<Call>)
    requires w.indent >= 0 && WellNested(tail, |w.stack|) && ms.Member? && ms.value.Obj?
    ensures WellNested(Calls(ms) + tail, |w.stack|)
    ensures Write(w, Calls(ms) + tail) == Write(Wrote(ms, w), tail)
    decreases ms, 0
  {
    var inner, more := ms.value.members, Calls(ms.rest) + tail;
    var w0 := Pushed(w, ms.name);
    var w1 := Wrote(inner, w0);
    var w2 := Popped(w1);
    OneObject(ms.name, inner, w);
    OneMore(ms, w, w2);
    CallsOfObject(ms, tail);
    assert |w0.stack| == |w.stack| + 1 && w0.indent >= 0 && w1.stack == w0.stack && w2.stack == w.stack;
    assert w2.indent == w.indent;
    assert Apply(w, Push(ms.name)) == w0 && Apply(w1, Pop) == w2;
    hide Wrote, Pushed, Popped, PrintValue, Added, Write, WellNested, Apply, Calls;
    WritesTree(ms.rest, w2, tail);
    WriteStep(w1, Pop, more);
    WritesTree(inner, w0, [Pop] + more);
    WriteStep(w, Push(ms.name), Calls(inner) + ([Pop] + more));
  }

  /** start, any well-nested calls, finish: the output is the printed tree of the calls. */
  lemma OutputIsPrinted(w: Writer, calls: seq<Call>)
    requires WellNested(calls, 0)
    ensures calls == Calls(Tree(calls).0)
    ensures Finished(Write(Started(w), calls)) ==
      Writer(w.out + PrintValue(Obj(Tree(calls).0), 0), 0, Count(Tree(calls).0), [])
  {
    hide Tree, Pushed, Calls;
    var ms := Tree(calls).0;
    WellNestedTree(calls, 0);
    assert calls == Calls(ms) + [];
    var w0 := Started(w);
    WritesTree(ms, w0, []);
    var w1 := Wrote(ms, w0);
    var closing := (if ms == Nil then "" else "\n") + "}";
    assert Finished(w1).out == w1.out + closing;
    assert PrintValue(Obj(ms), 0) == "{\n" + Body(ms, w0) + closing;
    assert w0.out == w.out + "{\n";
  }

  // ------------------------------------------------------------------ a reader

  predicate Blank(c: char) {
    c in {' ', '\t', '\n', '\r'}
  }

  predicate IsDigit(c: char) {
    '0' <= c <= '9'
  }

  function Skip(s: string): (r: string)
    ensures |r| <= |s|
  {
    if s != "" && Blank(s[0]) then Skip(s[1..]) else s
  }

  /** Up to the closing quote; escapes are not among what the writer can produce. */
  function ReadChars(s: string): (r: Option<(string, string)>)
    ensures r.Some? ==> |r.value.1| < |s|
  {
    if s == "" || s[0] == '\\' || s[0] < ' ' then None
    else if s[0] == '"' then Some(("", s[1..]))
    else
      var more := ReadChars(s[1..]);
      if more.None? then None else Some(([s[0]] + more.value.0, more.value.1))
  }

  function ReadDigits(s: string, n: nat): (r: (nat, string))
    ensures |r.1| <= |s|
  {
    if s != "" && IsDigit(s[0]) then ReadDigits(s[1..], n * 10 + (s[0] as int - '0' as int)) else (n, s)
  }

  function ReadValue(s: string): (r: Option<(Value, string)>)
    ensures r.Some? ==> |r.value.1| < |s|
    decreases |s|, 0
  {
    if s == "" then None
    else if s[0] == '"' then
      var text := ReadChars(s[1..]);
      if text.None? then None else Some((Str(text.value.0), text.value.1))
    else if s[0] == '{' then
      var inside := Skip(s[1..]);
      if inside != "" && inside[0] == '}' then Some((Obj(Nil), inside[1..]))
      else
        var members := ReadMembers(inside);
        if members.None? then None else Some((Obj(members.value.0), members.value.1))
    else if s[0] == '-' && |s| > 1 && IsDigit(s[1]) then
      var n := ReadDigits(s[2..], s[1] as int - '0' as int);
      Some((Num(0 - n.0), n.1))
    else if IsDigit(s[0]) then
      var n := ReadDigits(s[1..], s[0] as int - '0' as int);
      Some((Num(n.0), n.1))
    else None
  }

  /** One member or more, and the closing brace. */
  function ReadMembers(s: string): (r: Option<(Members, string)>)
    ensures r.Some? ==> |r.value.1| < |s|
    decreases |s|, 1
  {
    if s == "" || s[0] != '"' then None
    else
      var name := ReadChars(s[1..]);
      if name.None? then None
      else
        var colon := Skip(name.value.1);
        if colon == "" || colon[0] != ':' then None
        else
          var value := ReadValue(Skip(colon[1..]));
          if value.None? then None
          else
            var more := Skip(value.value.1);
            if more == "" then None
            else if more[0] == '}' then Some((Member(name.value.0, value.value.0, Nil), more[1..]))
            else if more[0] != ',' then None
            else
              var rest := ReadMembers(Skip(more[1..]));
              if rest.None? then None else Some((Member(name.value.0, value.value.0, rest.value.0), rest.value.1))
  }

  // ------------------------------------------------------------------ the reader gets the tree back

  predicate Clean(s: string) {
    forall i :: 0 <= i < |s| ==> s[i] >= ' ' && s[i] != '"' && s[i] != '\\'
  }

  predicate CleanValue(v: Value) {
    match v
    case Str(s) => Clean(s)
    case Num(_) => true
    case Obj(ms) => CleanMembers(ms)
  }

  predicate CleanMembers(ms: Members) {
    ms == Nil || (Clean(ms.name) && CleanValue(ms.value) && CleanMembers(ms.rest))
  }

  lemma {:induction false} ReadsChars(x: string, t: string)
    requires Clean(x)
    ensures ReadChars(x + "\"" + t) == Some((x, t))
  {
    if x == "" {
      assert (x + "\"" + t)[1..] == t;
    } else {
      ReadsChars(x[1..], t);
      assert (x + "\"" + t)[1..] == x[1..] + "\"" + t;
      assert [x[0]] + x[1..] == x;
    }
  }

  lemma {:induction false} ReadsDigits(n: nat, t: string)
    ensures ReadDigits(Digits(n) + t, 0) == ReadDigits(t, n)
  {
    var d := [('0' as int + n % 10) as char];
    assert (d + t)[1..] == t;
    if n >= 10 {
      ReadsDigits(n / 10, d + t);
      assert Digits(n) + t == Digits(n / 10) + (d + t);
    }
  }

  lemma {:induction false} SkipsIndent(depth: int, t: string)
    requires t != "" && !Blank(t[0])
    ensures Skip(Indent(depth) + t) == t
  {
    if depth > 0 {
      SkipsIndent(depth - 1, t);
      assert (Indent(depth) + t)[1..] == Indent(depth - 1) + t;
    } else {
      assert Indent(depth) + t == t;
    }
  }

  lemma ReadsNumber(n: int, t: string)
    requires t == "" || !IsDigit(t[0])
    ensures ReadValue(Decimal(n) + t) == Some((Num(n), t))
  {
    hide Digits, ReadValue, ReadDigits;
    if n < 0 {
      ReadsNatural(-n, t);
      ReadsNegative(-n, Digits(-n) + t, t);
      assert Decimal(n) + t == "-" + (Digits(-n) + t);
    } else {
      ReadsNatural(n, t);
    }
  }

  lemma ReadsNegative(n: nat, s: string, t: string)
    requires s != "" && IsDigit(s[0]) && ReadDigits(s[1..], s[0] as int - '0' as int) == (n, t)
    ensures ReadValue("-" + s) == Some((Num(0 - n), t))
  {
    assert ("-" + s)[2..] == s[1..];
  }

  lemma ReadsNatural(n: nat, t: string)
    requires t == "" || !IsDigit(t[0])
    ensures var s := Digits(n) + t;
      && IsDigit(s[0]) && ReadDigits(s[1..], s[0] as int - '0' as int) == (n, t)
      && ReadValue(s) == Some((Num(n), t))
  {
    ReadsDigits(n, t);
    hide Digits;
  }

  lemma PrintedStarts(v: Value, depth: nat, t: string)
    ensures PrintValue(v, depth) + t != "" && !Blank((PrintValue(v, depth) + t)[0])
  {
  }

  /** How reading goes on after a member's value. */
  function ReadOn(name: string, v: Value, after: string): Option<(Members, string)> {
    var more := Skip(after);
    if more == "" then None
    else if more[0] == '}' then Some((Member(name, v, Nil), more[1..]))
    else if more[0] != ',' then None
    else
      var rest := ReadMembers(Skip(more[1..]));
      if rest.None? then None else Some((Member(name, v, rest.value.0), rest.value.1))
  }

  /** What ReadMembers makes of one member, given what its value reads as. */
  lemma ReadsOne(name: string, v: Value, text: string, after: string)
    requires Clean(name) && text != "" && !Blank(text[0]) && ReadValue(text) == Some((v, after))
    ensures ReadMembers("\"" + (name + "\"" + (": " + text))) == ReadOn(name, v, after)
  {
    var s := "\"" + (name + "\"" + (": " + text));
    assert s[1..] == name + "\"" + (": " + text);
    ReadsChars(name, ": " + text);
    var colon := ": " + text;
    assert Skip(colon) == colon && colon[1..] == " " + text;
    assert (" " + text)[1..] == text;
    assert Skip(" " + text) == text;
    hide ReadChars, ReadValue;
  }

  function Closing(depth: nat, t: string): string {
    "\n" + (Indent(depth) + ("}" + t))
  }

  lemma SkipsClosing(depth: nat, t: string)
    ensures Skip(Closing(depth, t)) == "}" + t
  {
    SkipsIndent(depth, "}" + t);
    assert Closing(depth, t)[1..] == Indent(depth) + ("}" + t);
  }

  lemma {:induction false} ReadsMembers(ms: Members, depth: nat, t: string)
    requires ms.Member? && CleanMembers(ms)
    ensures ReadMembers(Skip(PrintMembers(ms, depth + 1) + Closing(depth, t))) == Some((ms, t))
    decreases ms, 1
  {
    var tail := Closing(depth, t);
    assert tail != "" && !IsDigit(tail[0]);
    hide PrintMembers, PrintValue, ReadMembers, ReadValue, Closing, Skip, ReadOn;
    ReadsValue(ms.value, depth + 1, After(ms, depth + 1, tail));
    hide After;
    FirstMember(ms, depth + 1, tail);
    if ms.rest != Nil {
      ReadsMembers(ms.rest, depth, t);
    }
    ReadsOn(ms, depth, t);
  }

  lemma FirstMember(ms: Members, depth: nat, tail: string)
    requires ms.Member? && Clean(ms.name)
    requires var after := After(ms, depth, tail);
       ReadValue(PrintValue(ms.value, depth) + after) == Some((ms.value, after))
    ensures ReadMembers(Skip(PrintMembers(ms, depth) + tail)) == ReadOn(ms.name, ms.value, After(ms, depth, tail))
  {
    var after := After(ms, depth, tail);
    var text := PrintValue(ms.value, depth) + after;
    var one := "\"" + (ms.name + "\"" + (": " + text));
    assert one[0] == '"';
    hide PrintMembers, PrintValue, ReadMembers, ReadValue, Indent, ReadOn, Clean;
    MemberText(ms, depth, tail);
    SkipsIndent(depth, one);
    PrintedStarts(ms.value, depth, after);
    ReadsOne(ms.name, ms.value, text, after);
  }

  lemma ReadsOn(ms: Members, depth: nat, t: string)
    requires ms.Member?
    requires ms.rest != Nil ==>
      ReadMembers(Skip(PrintMembers(ms.rest, depth + 1) + Closing(depth, t))) == Some((ms.rest, t))
    ensures ReadOn(ms.name, ms.value, After(ms, depth + 1, Closing(depth, t))) == Some((ms, t))
  {
    var tail := Closing(depth, t);
    hide PrintMembers, ReadMembers, Closing;
    if ms.rest == Nil {
      SkipsClosing(depth, t);
      assert ("}" + t)[1..] == t;
    } else {
      SkipsComma(PrintMembers(ms.rest, depth + 1) + tail);
    }
  }

  /** What follows a member's value. */
  function After(ms: Members, depth: nat, tail: string): (r: string)
    requires ms.Member?
    ensures tail != "" && !IsDigit(tail[0]) ==> r != "" && !IsDigit(r[0])
  {
    if ms.rest == Nil then tail else ",\n" + (PrintMembers(ms.rest, depth) + tail)
  }

  lemma SkipsComma(next: string)
    ensures var s := ",\n" + next;
      Skip(s) == s && s[0] == ',' && Skip(s[1..]) == Skip(next)
  {
    var s := ",\n" + next;
    assert s[1..] == "\n" + next;
    assert ("\n" + next)[1..] == next;
  }

  lemma MemberText(ms: Members, depth: nat, tail: string)
    requires ms.Member?
    ensures PrintMembers(ms, depth) + tail ==
      Indent(depth) + ("\"" + (ms.name + "\"" + (": " + (PrintValue(ms.value, depth) + After(ms, depth, tail)))))
  {
    var text := PrintValue(ms.value, depth);
    var rest := PrintMembers(ms.rest, depth);
    var more := if ms.rest == Nil then "" else ",\n" + rest;
    assert PrintMembers(ms, depth) == Indent(depth) + Quoted(ms.name) + ": " + text + more;
    hide PrintMembers, PrintValue, Indent, Quoted;
    assert more + tail == After(ms, depth, tail) by {
      CommaText(rest, tail);
      assert "" + tail == tail;
    }
    Parenthesize(Indent(depth), ms.name, text, more, tail);
  }

  lemma CommaText(rest: string, tail: string)
    ensures (",\n" + rest) + tail == ",\n" + (rest + tail)
  {
  }

  lemma Parenthesize(a: string, name: string, text: string, more: string, tail: string)
    ensures (a + Quoted(name) + ": " + text + more) + tail
         == a + ("\"" + (name + "\"" + (": " + (text + (more + tail)))))
  {
  }

  lemma {:induction false} ReadsValue(v: Value, depth: nat, t: string)
    requires CleanValue(v) && (t == "" || !IsDigit(t[0]))
    ensures ReadValue(PrintValue(v, depth) + t) == Some((v, t))
    decreases v, 0
  {
    match v
    case Str(x) =>
      ReadsChars(x, t);
      assert (Quoted(x) + t)[1..] == x + "\"" + t;
    case Num(n) =>
      ReadsNumber(n, t);
    case Obj(ms) =>
      if ms == Nil {
        ReadsEmpty(depth, t);
      } else {
        ReadsMembers(ms, depth, t);
        ReadsObject(ms, depth, t);
      }
  }

  lemma ReadsEmpty(depth: nat, t: string)
    ensures ReadValue(PrintValue(Obj(Nil), depth) + t) == Some((Obj(Nil), t))
  {
    var s := PrintValue(Obj(Nil), depth) + t;
    assert s == "{" + Closing(depth, t) by {
      Braces("", Indent(depth), t);
    }
    assert s[1..] == Closing(depth, t);
    SkipsClosing(depth, t);
    assert ("}" + t)[1..] == t;
  }

  lemma Braces(body: string, tabs: string, t: string)
    ensures ("{\n" + body + "\n" + tabs + "}") + t == "{" + ("\n" + (body + ("\n" + (tabs + ("}" + t)))))
    ensures ("{\n" + "" + "" + tabs + "}") + t == "{" + ("\n" + (tabs + ("}" + t)))
  {
  }

  lemma ReadsObject(ms: Members, depth: nat, t: string)
    requires ms.Member? && ReadMembers(Skip(PrintMembers(ms, depth + 1) + Closing(depth, t))) == Some((ms, t))
    ensures ReadValue(PrintValue(Obj(ms), depth) + t) == Some((Obj(ms), t))
  {
    hide PrintMembers, ReadMembers;
    var body := PrintMembers(ms, depth + 1);
    var inside := body + Closing(depth, t);
    var s := PrintValue(Obj(ms), depth) + t;
    StartsWithQuote(inside);
    Braces(body, Indent(depth), t);
    assert s == "{" + ("\n" + inside);
    assert s[1..] == "\n" + inside;
    assert ("\n" + inside)[1..] == inside;
  }

  lemma StartsWithQuote(s: string)
    requires ReadMembers(Skip(s)).Some?
    ensures Skip(s) != "" && Skip(s)[0] == '"'
  {
  }

  /** What any well-nested calls with clean strings have written, a reader turns back into their tree. */
  lemma ReaderRecovers(w: Writer, calls: seq<Call>)
    requires WellNested(calls, 0) && w.out == "" && CleanMembers(Tree(calls).0)
    ensures ReadValue(Finished(Write(Started(w), calls)).out) == Some((Obj(Tree(calls).0), ""))
  {
    OutputIsPrinted(w, calls);
    var text := PrintValue(Obj(Tree(calls).0), 0);
    assert w.out + text == text + "";
    ReadsValue(Obj(Tree(calls).0), 0, "");
  }

  /** So no two sets of clean calls write the same. */
  lemma OutputDeterminesCalls(w: Writer, calls: seq<Call>, others: seq<Call>)
    requires WellNested(calls, 0) && WellNested(others, 0) && w.out == ""
    requires CleanMembers(Tree(calls).0) && CleanMembers(Tree(others).0)
    requires Finished(Write(Started(w), calls)).out == Finished(Write(Started(w), others)).out
    ensures calls == others
  {
    ReaderRecovers(w, calls);
    ReaderRecovers(w, others);
    OutputIsPrinted(w, calls);
    OutputIsPrinted(w, others);
  }

  // ------------------------------------------------------------------ the writer as the program has it

  class JsonWriter {
    var out: string
    var indent: int
    var siblings: nat
    var stack: seq<nat>

    ghost function View(): Writer
      reads this
    {
      Writer(out, indent, siblings, stack)
    }

    constructor ()
      ensures View() == Writer("", 0, 0, [])
    {
      out, indent, siblings, stack := "", 0, 0, [];
    }

    method OutputIndent()
      modifies this`out
      ensures out == old(out) + Indent(indent)
      ensures out == old(out) + seq(if indent < 0 then 0 else indent, _ => '\t')
    {
      IndentIsTabs(indent);
      var i := indent;
      while i > 0
        invariant i <= indent || i <= 0
        invariant out + Indent(i) == old(out) + Indent(indent)
      {
        out := out + "\t";
        i := i - 1;
      }
      assert out + "" == out;
    }

    method AddText(name: string, text: string)
      modifies this`out, this`siblings
      ensures View() == Added(old(View()), name, text)
    {
      if siblings > 0 {
        out := out + ",\n";
      }
      OutputIndent();
      out := out + Quoted(name) + ": " + text;
      siblings := siblings + 1;
    }

    method AddStringSibling(name: string, value: string)
      modifies this`out, this`siblings
      ensures View() == Apply(old(View()), AddString(name, value))
    {
      AddText(name, Quoted(value));
    }

    method AddIntSibling(name: string, value: int)
      modifies this`out, this`siblings
      ensures View() == Apply(old(View()), AddInt(name, value))
    {
      AddText(name, Decimal(value));
    }

    method PushLevel(name: string)
      modifies this
      ensures View() == Apply(old(View()), Push(name))
    {
      if siblings > 0 {
        out := out + ",\n";
      }
      OutputIndent();
      out := out + Quoted(name) + ": {\n";
      stack := stack + [siblings];
      siblings := 0;
      indent := indent + 1;
    }

    method PopLevel()
      requires stack != []
      modifies this
      ensures View() == Apply(old(View()), Pop)
    {
      if siblings > 0 {
        out := out + "\n";
      }
      indent := indent - 1;
      siblings := stack[|stack| - 1];
      stack := stack[..|stack| - 1];
      OutputIndent();
      out := out + "}";
      siblings := siblings + 1;
    }

    method Start()
      modifies this
      ensures View() == Started(old(View()))
    {
      out := out + "{\n";
      indent := 1;
      siblings := 0;
      stack := [];
    }

    method Finish()
      modifies this
      ensures View() == Finished(old(View()))
    {
      if siblings > 0 {
        out := out + "\n";
      }
      indent := indent - 1;
      OutputIndent();
      out := out + "}";
    }

    /** A whole document, whatever the calls. */
    method WriteAll(calls: seq<Call>)
      requires WellNested(calls, 0)
      modifies this
      ensures out == old(out) + PrintValue(Obj(Tree(calls).0), 0)
    {
      ghost var w := View();
      Start();
      var i := 0;
      while i < |calls|
        invariant i <= |calls| && WellNested(calls[i..], |stack|)
        invariant Write(View(), calls[i..]) == Write(Started(w), calls)
      {
        assert calls[i..][1..] == calls[i + 1..];
        match calls[i] {
          case AddString(name, value) => AddStringSibling(name, value);
          case AddInt(name, value) => AddIntSibling(name, value);
          case Push(name) => PushLevel(name);
          case Pop => PopLevel();
        }
        i := i + 1;
      }
      Finish();
      OutputIsPrinted(w, calls);
    }
  }
}
