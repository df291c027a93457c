// main/Tool/Json_data.c, is_complete_json: the scan that decides whether the bytes
// received so far hold a whole JSON object.
module JsonScanner {

  // ---- The scan ----

  // brace_count, in_string, escape. A negative depth is the early `return false`.
  datatype Scan = Scan(depth: int, inString: bool, escape: bool)

  function Step(s: Scan, c: char): Scan {
    if s.depth < 0 then s
    else if s.escape then s.(escape := false)
    else if c == '\\' then s.(escape := true)
    else if c == '"' then s.(inString := !s.inString)
    else if s.inString then s
    else if c == '{' then s.(depth := s.depth + 1)
    else if c == '}' then s.(depth := s.depth - 1)
    else s
  }

  function Run(s: Scan, t: string): Scan {
    if t == [] then s else Step(Run(s, t[..|t| - 1]), t[|t| - 1])
  }

  const START := Scan(0, false, false)

  predicate IsSpace(c: char) {
    c == ' ' || '\t' <= c <= '\r'
  }

  function TrimLeft(t: string): string {
    if t != [] && IsSpace(t[0]) then TrimLeft(t[1..]) else t
  }

  function TrimRight(t: string): string {
    if t != [] && IsSpace(t[|t| - 1]) then TrimRight(t[..|t| - 1]) else t
  }

  predicate Complete(t: string) {
    var u := TrimRight(TrimLeft(t));
    && u != [] && u[0] == '{' && u[|u| - 1] == '}'
    && !Run(START, u).inString && Run(START, u).depth == 0
  }

  method IsCompleteJson(buffer: array?<char>, len: int) returns (complete: bool)
    requires buffer != null ==> len <= buffer.Length
    ensures complete <==> buffer != null && len > 0 && Complete(buffer[..len])
  {
    if buffer == null || len <= 0 { return false; }
    ghost var t := buffer[..len];
    var start := 0;
    while start < len && IsSpace(buffer[start])
      invariant 0 <= start <= len
      invariant TrimLeft(t) == TrimLeft(t[start..])
    {
      assert t[start..][1..] == t[start + 1..];
      start := start + 1;
    }
    assert TrimLeft(t) == t[start..];
    if start >= len || buffer[start] != '{' {
      TrimRightFirst(t[start..]);
      return false;
    }
    var end := len - 1;
    assert t[start..end + 1] == t[start..];
    while end >= 0 && IsSpace(buffer[end])
      invariant start <= end < len
      invariant TrimRight(t[start..]) == TrimRight(t[start..end + 1])
    {
      assert start < end;
      assert t[start..end + 1][..end - start] == t[start..end];
      end := end - 1;
    }
    ghost var u := t[start..end + 1];
    assert u[|u| - 1] == buffer[end];
    TrimmedRight(u);
    if end < 0 || buffer[end] != '}' { return false; }
    complete := ScanObject(buffer, start, end, u);
  }

  lemma {:induction false} TrimmedRight(u: string)
    requires u != [] && !IsSpace(u[|u| - 1])
    ensures TrimRight(u) == u
  {
  }

  // The loop over the trimmed text.
  method ScanObject(buffer: array<char>, start: nat, end: nat, ghost u: string) returns (complete: bool)
    requires start <= end < buffer.Length && |u| == end + 1 - start
    requires forall k :: 0 <= k < |u| ==> u[k] == buffer[start + k]
    ensures complete <==> !Run(START, u).inString && Run(START, u).depth == 0
  {
    var braceCount, inString, escape := 0, false, false;
    var i := start;
    while i <= end
      invariant start <= i <= end + 1
      invariant braceCount >= 0 && Run(START, u[..i - start]) == Scan(braceCount, inString, escape)
    {
      var c := buffer[i];
      RunNext(START, u, i - start);
      i := i + 1;
      if escape {
        escape := false;
        continue;
      }
      if c == '\\' {
        escape := true;
        continue;
      }
      if c == '"' {
        inString := !inString;
        continue;
      }
      if !inString {
        if c == '{' {
          braceCount := braceCount + 1;
        } else if c == '}' {
          braceCount := braceCount - 1;
          if braceCount < 0 {
            RunFailed(START, u, i - start);
            return false;
          }
        }
      }
    }
    assert u[..i - start] == u;
    return !inString && braceCount == 0;
  }

  lemma {:induction false} RunAppend(s: Scan, a: string, b: string)
    ensures Run(s, a + b) == Run(Run(s, a), b)
  {
    if b == [] {
      assert a + b == a;
    } else {
      assert (a + b)[..|a + b| - 1] == a + b[..|b| - 1];
      RunAppend(s, a, b[..|b| - 1]);
    }
  }

  lemma {:induction false} RunFailed(s: Scan, t: string, j: nat)
    requires j <= |t| && Run(s, t[..j]).depth < 0
    ensures Run(s, t) == Run(s, t[..j])
  {
    if j < |t| {
      assert t[..|t| - 1][..j] == t[..j];
      RunFailed(s, t[..|t| - 1], j);
    } else {
      assert t[..j] == t;
    }
  }

  lemma {:induction false} RunNext(s: Scan, t: string, j: nat)
    requires j < |t|
    ensures Run(s, t[..j + 1]) == Step(Run(s, t[..j]), t[j])
  {
    assert t[..j + 1][..j] == t[..j];
  }

  // Trimming on the right keeps the first character, or leaves nothing.
  lemma {:induction false} TrimRightFirst(t: string)
    ensures TrimRight(t) <= t
  {
    if t != [] && IsSpace(t[|t| - 1]) { TrimRightFirst(t[..|t| - 1]); }
  }

  // ---- JSON texts (RFC 8259): every value, with any whitespace between tokens ----

  // Between the quotes of a string: one character, or a backslash and the one
  // after it (the digits of a \u escape are plain characters).
  datatype Item = Plain(c: char) | Escaped(c: char)

  datatype Json =
    | Word(text: string)  // a number or one of the three literal names
    | Str(items: seq<Item>)
    | Arr(ws: string, elems: seq<Elem>)
    | Obj(ws: string, members: seq<Member>)
  datatype Elem = Elem(before: string, value: Json, after: string)
  datatype Member = Member(before: string, key: seq<Item>, colon: string, value: Elem)

  predicate Blank(w: string) { forall i :: 0 <= i < |w| ==> w[i] in " \t\n\r" }

  predicate WordChar(c: char) {
    '0' <= c <= '9' || 'a' <= c <= 'z' || c == 'E' || c == '+' || c == '-' || c == '.'
  }

  predicate ItemsOk(items: seq<Item>) {
    forall i :: 0 <= i < |items| && items[i].Plain? ==> items[i].c != '"' && items[i].c != '\\'
  }

  predicate Ok(v: Json) {
    match v
    case Word(text) => text != [] && forall i :: 0 <= i < |text| ==> WordChar(text[i])
    case Str(items) => ItemsOk(items)
    case Arr(ws, elems) => Blank(ws) && forall e | e in elems :: ElemOk(e)
    case Obj(ws, members) => Blank(ws) && forall m | m in members :: MemberOk(m)
  }

  predicate ElemOk(e: Elem) { Blank(e.before) && Ok(e.value) && Blank(e.after) }

  predicate MemberOk(m: Member) { Blank(m.before) && ItemsOk(m.key) && Blank(m.colon) && ElemOk(m.value) }

  function ItemsText(items: seq<Item>): string {
    if items == [] then []
    else (match items[0] case Plain(c) => [c] case Escaped(c) => ['\\', c]) + ItemsText(items[1..])
  }

  function StrText(items: seq<Item>): string { "\"" + ItemsText(items) + "\"" }

  function Text(v: Json): string
    decreases v
  {
    match v
    case Word(text) => text
    case Str(items) => StrText(items)
    case Arr(ws, elems) => "[" + (if elems == [] then ws else ElemsText(elems)) + "]"
    case Obj(ws, members) => "{" + Inside(ws, members) + "}"
  }

  function Inside(ws: string, members: seq<Member>): string
    decreases members, 1
  {
    if members == [] then ws else MembersText(members)
  }

  function ElemText(e: Elem): string
    decreases e
  {
    e.before + Text(e.value) + e.after
  }

  function ElemsText(es: seq<Elem>): string
    requires es != []
    decreases es
  {
    ElemText(es[0]) + (if |es| == 1 then [] else "," + ElemsText(es[1..]))
  }

  function MemberText(m: Member): string
    decreases m
  {
    m.before + StrText(m.key) + m.colon + ":" + ElemText(m.value)
  }

  function MembersText(ms: seq<Member>): string
    requires ms != []
    decreases ms, 0
  {
    MemberText(ms[0]) + (if |ms| == 1 then [] else "," + MembersText(ms[1..]))
  }

  // ---- A well-formed text leaves the scan where it was, and never below ----

  predicate Between(s: Scan) { s.depth >= 0 && !s.inString && !s.escape }

  ghost predicate Closed(s: Scan, t: string) {
    && Run(s, t) == s
    && forall k :: 0 <= k <= |t| ==> Run(s, t[..k]).depth >= s.depth
  }

  lemma {:induction false} ClosedAppend(s: Scan, a: string, b: string)
    requires Closed(s, a) && Closed(s, b)
    ensures Closed(s, a + b)
  {
    RunAppend(s, a, b);
    forall k | 0 <= k <= |a + b| ensures Run(s, (a + b)[..k]).depth >= s.depth {
      if k <= |a| {
        assert (a + b)[..k] == a[..k];
      } else {
        assert (a + b)[..k] == a + b[..k - |a|];
        RunAppend(s, a, b[..k - |a|]);
      }
    }
  }

  predicate Inert(c: char) { c != '\\' && c != '"' && c != '{' && c != '}' }

  lemma {:induction false} InertClosed(s: Scan, t: string)
    requires Between(s) && forall i :: 0 <= i < |t| ==> Inert(t[i])
    ensures Closed(s, t)
  {
    if t != [] {
      var r := t[..|t| - 1];
      InertClosed(s, r);
      forall k | 0 <= k <= |t| ensures Run(s, t[..k]).depth >= s.depth {
        if k == |t| { assert t[..k] == t; } else { assert t[..k] == r[..k]; }
      }
    }
  }

  // Inside the quotes the depth does not move.
  lemma {:induction false} ItemsStay(s: Scan, items: seq<Item>)
    requires s.depth >= 0 && s.inString && !s.escape && ItemsOk(items)
    ensures Closed(s, ItemsText(items))
  {
    if items != [] {
      ItemsStay(s, items[1..]);
      match items[0]
      case Plain(c) =>
        assert Closed(s, [c]) by { assert [c][..0] == [] && [c][..1] == [c]; }
        ClosedAppend(s, [c], ItemsText(items[1..]));
      case Escaped(c) =>
        assert Closed(s, ['\\', c]) by {
          assert ['\\', c][..0] == [] && ['\\', c][..1] == ['\\'] && ['\\', c][..2] == ['\\', c];
          assert Run(s, ['\\']) == s.(escape := true) by { assert ['\\'][..0] == []; }
        }
        ClosedAppend(s, ['\\', c], ItemsText(items[1..]));
    }
  }

  lemma {:induction false} Wrapped(s: Scan, open: char, t: string, close: char)
    requires Between(s)
    requires var s' := Step(s, open); s'.depth >= s.depth && Closed(s', t) && Step(s', close) == s
    ensures Closed(s, [open] + t + [close])
    ensures forall k :: 0 < k < |t| + 2 ==> Run(s, ([open] + t + [close])[..k]).depth >= Step(s, open).depth
  {
    var s', all := Step(s, open), [open] + t + [close];
    assert Run(s, [open]) == s' by { assert [open][..0] == []; }
    forall k | 0 < k < |all| ensures Run(s, all[..k]).depth >= s'.depth {
      assert all[..k] == [open] + t[..k - 1];
      RunAppend(s, [open], t[..k - 1]);
    }
    assert all[..|all| - 1] == [open] + t;
    RunAppend(s, [open], t);
    assert all[..|all|] == all && all[..0] == [];
  }

  lemma {:induction false} StrClosed(s: Scan, items: seq<Item>)
    requires Between(s) && ItemsOk(items)
    ensures Closed(s, StrText(items))
  {
    ItemsStay(s.(inString := true), items);
    Wrapped(s, '"', ItemsText(items), '"');
  }

  lemma {:induction false} TextClosed(s: Scan, v: Json)
    requires Between(s) && Ok(v)
    ensures Closed(s, Text(v))
    decreases v
  {
    match v
    case Word(text) => InertClosed(s, text);
    case Str(items) => StrClosed(s, items);
    case Arr(ws, elems) =>
      if elems == [] { InertClosed(s, ws); } else { ElemsClosed(s, elems); }
      Wrapped(s, '[', if elems == [] then ws else ElemsText(elems), ']');
    case Obj(ws, members) =>
      InsideClosed(s.(depth := s.depth + 1), ws, members);
      Wrapped(s, '{', Inside(ws, members), '}');
  }

  lemma {:induction false} InsideClosed(s: Scan, ws: string, ms: seq<Member>)
    requires Between(s) && Blank(ws) && forall m | m in ms :: MemberOk(m)
    ensures Closed(s, Inside(ws, ms))
    decreases ms, 1
  {
    if ms == [] { InertClosed(s, ws); } else { MembersClosed(s, ms); }
  }

  lemma {:induction false} ElemClosed(s: Scan, e: Elem)
    requires Between(s) && ElemOk(e)
    ensures Closed(s, ElemText(e))
    decreases e
  {
    InertClosed(s, e.before); InertClosed(s, e.after);
    TextClosed(s, e.value);
    ClosedAppend(s, e.before, Text(e.value));
    ClosedAppend(s, e.before + Text(e.value), e.after);
  }

  lemma {:induction false} ElemsClosed(s: Scan, es: seq<Elem>)
    requires Between(s) && es != [] && forall e | e in es :: ElemOk(e)
    ensures Closed(s, ElemsText(es))
    decreases es
  {
    ElemClosed(s, es[0]);
    if |es| > 1 {
      ElemsClosed(s, es[1..]);
      InertClosed(s, ",");
      ClosedAppend(s, ",", ElemsText(es[1..]));
      ClosedAppend(s, ElemText(es[0]), "," + ElemsText(es[1..]));
    } else {
      assert ElemsText(es) == ElemText(es[0]);
    }
  }

  lemma {:induction false} MemberClosed(s: Scan, m: Member)
    requires Between(s) && MemberOk(m)
    ensures Closed(s, MemberText(m))
    decreases m
  {
    InertClosed(s, m.before); InertClosed(s, m.colon); InertClosed(s, ":");
    StrClosed(s, m.key);
    ElemClosed(s, m.value);
    ClosedAppend(s, m.before, StrText(m.key));
    ClosedAppend(s, m.before + StrText(m.key), m.colon);
    ClosedAppend(s, m.before + StrText(m.key) + m.colon, ":");
    ClosedAppend(s, m.before + StrText(m.key) + m.colon + ":", ElemText(m.value));
  }

  lemma {:induction false} MembersClosed(s: Scan, ms: seq<Member>)
    requires Between(s) && ms != [] && forall m | m in ms :: MemberOk(m)
    ensures Closed(s, MembersText(ms))
    decreases ms, 0
  {
    MemberClosed(s, ms[0]);
    if |ms| > 1 {
      MembersClosed(s, ms[1..]);
      InertClosed(s, ",");
      ClosedAppend(s, ",", MembersText(ms[1..]));
      ClosedAppend(s, MemberText(ms[0]), "," + MembersText(ms[1..]));
    } else {
      assert MembersText(ms) == MemberText(ms[0]);
    }
  }

  // ---- The theorem ----

  lemma {:induction false} TrimLeftBlank(w: string, t: string)
    requires Blank(w) && (t == [] || !IsSpace(t[0]))
    ensures TrimLeft(w + t) == t
  {
    if w == [] {
      assert w + t == t;
    } else {
      assert (w + t)[1..] == w[1..] + t;
      TrimLeftBlank(w[1..], t);
    }
  }

  lemma {:induction false} TrimRightBlank(t: string, w: string)
    requires Blank(w) && t != [] && !IsSpace(t[|t| - 1])
    ensures TrimRight(t + w) == t
  {
    if w == [] {
      assert t + w == t;
    } else {
      assert (t + w)[..|t + w| - 1] == t + w[..|w| - 1];
      TrimRightBlank(t, w[..|w| - 1]);
    }
  }

  // Up to its closing brace an object keeps the depth at one or more.
  lemma {:induction false} ObjectScan(o: Json)
    requires o.Obj? && Ok(o)
    ensures Run(START, Text(o)) == START
    ensures forall k :: 0 < k < |Text(o)| ==> Run(START, Text(o)[..k]).depth >= 1
    ensures |Text(o)| >= 2 && Text(o)[0] == '{' && Text(o)[|Text(o)| - 1] == '}'
  {
    InsideClosed(START.(depth := 1), o.ws, o.members);
    Wrapped(START, '{', Inside(o.ws, o.members), '}');
  }

  lemma {:induction false} WholeIsComplete(before: string, o: Json, after: string)
    requires Blank(before) && Blank(after) && o.Obj? && Ok(o)
    ensures Complete(before + Text(o) + after)
  {
    ObjectScan(o);
    assert before + Text(o) + after == before + (Text(o) + after);
    TrimLeftBlank(before, Text(o) + after);
    TrimRightBlank(Text(o), after);
  }

  lemma {:induction false} PartIsNot(before: string, o: Json, k: nat)
    requires Blank(before) && o.Obj? && Ok(o) && k < |Text(o)|
    ensures !Complete(before + Text(o)[..k])
  {
    ObjectScan(o);
    var p := Text(o)[..k];
    TrimLeftBlank(before, p);
    TrimRightFirst(p);
    var u := TrimRight(p);
    if u != [] {
      assert u == Text(o)[..|u|];
    }
  }

  // As the text of an object arrives between blanks, the scan answers `complete`
  // exactly from the object's closing brace on.
  lemma {:induction false} CompleteFromClosingBrace(before: string, o: Json, after: string, k: nat)
    requires Blank(before) && Blank(after) && o.Obj? && Ok(o)
    requires k <= |before + Text(o) + after|
    ensures Complete((before + Text(o) + after)[..k]) <==> k >= |before| + |Text(o)|
  {
    var x := Text(o);
    var got := (before + x + after)[..k];
    if k >= |before| + |x| {
      assert got == before + x + after[..k - |before| - |x|];
      WholeIsComplete(before, o, after[..k - |before| - |x|]);
    } else if k >= |before| {
      assert got == before + x[..k - |before|];
      PartIsNot(before, o, k - |before|);
    } else {
      assert got == before[..k] + [];
      TrimLeftBlank(before[..k], []);
    }
  }

  // The scan counts braces; it does not parse. Two objects side by side pass.
  lemma {:induction false} TwoObjectsPass()
    ensures Complete("{}{}")
  {
    var t := "{}{}";
    assert t[..3] == "{}{" && t[..3][..2] == "{}" && t[..3][..2][..1] == "{" && "{"[..0] == "";
    assert Run(START, "{") == Scan(1, false, false);
    assert Run(START, "{}") == START;
    assert Run(START, "{}{") == Scan(1, false, false);
  }
}
