/** Finding the JSON object in a model's answer: trim, look into a code fence, scan from the
    first brace to its match, and pay no attention to braces inside strings. */
module JsonScan {
  import opened Prelude

  // ---- Text before the scan ------------------------------------------------------------------

  /** White space as strings.TrimSpace sees it. */
  predicate IsSpace(c: char) {
    || c in {' ', '\t', '\n', '\r', '\U{B}', '\U{C}', '\U{85}', '\U{A0}', '\U{1680}', '\U{2028}', '\U{2029}', '\U{202F}', '\U{205F}', '\U{3000}'}
    || '\U{2000}' <= c <= '\U{200A}'
  }

  function TrimLeft(s: string): string {
    if s != "" && IsSpace(s[0]) then TrimLeft(s[1..]) else s
  }

  function TrimRight(s: string): string {
    if s != "" && IsSpace(s[|s| - 1]) then TrimRight(s[..|s| - 1]) else s
  }

  function TrimSpace(s: string): string {
    TrimRight(TrimLeft(s))
  }

  predicate StartsAt(s: string, part: string, i: nat) {
    i + |part| <= |s| && s[i..i + |part|] == part
  }

  /** strings.Index: the first place where part starts. */
  function Index(s: string, part: string): (r: Option<nat>)
    ensures r.Some? ==> StartsAt(s, part, r.value) && forall i: nat :: i < r.value ==> !StartsAt(s, part, i)
    ensures r.None? ==> forall i: nat :: !StartsAt(s, part, i)
  {
    IndexFrom(s, part, 0)
  }

  function IndexFrom(s: string, part: string, from: nat): (r: Option<nat>)
    requires from <= |s| + 1
    ensures r.Some? ==>
              from <= r.value && StartsAt(s, part, r.value) && forall i: nat :: from <= i < r.value ==> !StartsAt(s, part, i)
    ensures r.None? ==> forall i: nat :: from <= i ==> !StartsAt(s, part, i)
    decreases |s| + 1 - from
  {
    if from > |s| then None
    else if StartsAt(s, part, from) then Some(from)
    else IndexFrom(s, part, from + 1)
  }

  const FENCE: string := "```"

  function AfterLabel(s: string): string {
    if StartsAt(s, "json", 0) then s[4..] else s
  }

  /** The text that is scanned: the inside of the first fence if it is closed. */
  function Scanned(raw: string): string {
    var s := TrimSpace(raw);
    match Index(s, FENCE)
    case None => s
    case Some(i) =>
      var rest := AfterLabel(s[i + 3..]);
      match Index(rest, FENCE)
      case None => s
      case Some(end) => rest[..end]
  }

  // ---- The scan --------------------------------------------------------------------------------

  datatype Scan = Scan(depth: int, inString: bool, escaped: bool)

  const START: Scan := Scan(0, false, false)

  function Next(st: Scan, c: char): Scan {
    if st.inString then
      if st.escaped then st.(escaped := false)
      else if c == '\\' then st.(escaped := true)
      else if c == '"' then st.(inString := false)
      else st
    else if c == '"' then st.(inString := true)
    else if c == '{' then st.(depth := st.depth + 1)
    else if c == '}' then st.(depth := st.depth - 1)
    else st
  }

  function Run(st: Scan, s: string): Scan {
    if s == "" then st else Next(Run(st, s[..|s| - 1]), s[|s| - 1])
  }

  /** The first brace, and the shortest stretch from it that closes it. */
  ghost predicate ObjectAt(s: string, start: nat, end: nat) {
    && start < end <= |s| && s[start] == '{' && (forall k :: 0 <= k < start ==> s[k] != '{')
    && Run(START, s[start..end]).depth == 0
    && forall k :: start < k < end ==> Run(START, s[start..k]).depth > 0
  }

  ghost predicate HasObject(s: string) {
    exists start: nat, end: nat :: ObjectAt(s, start, end)
  }

  /** The result is the shortest string-aware balanced stretch from the first brace of the
      scanned text; without one there is no result. */
  method ExtractJsonObject(raw: string) returns (r: Option<string>)
    ensures r.Some? <==> HasObject(Scanned(raw))
    ensures r.Some? ==>
              exists start: nat, end: nat :: ObjectAt(Scanned(raw), start, end) && r.value == Scanned(raw)[start..end]
  {
    var s := TrimSpace(raw);
    var fence := Index(s, FENCE);
    if fence.Some? {
      var rest := AfterLabel(s[fence.value + 3..]);
      var end := Index(rest, FENCE);
      if end.Some? {
        s := rest[..end.value];
      }
    }
    r := ScanObject(s);
  }

  method ScanObject(s: string) returns (r: Option<string>)
    ensures r.Some? <==> HasObject(s)
    ensures r.Some? ==> exists start: nat, end: nat :: ObjectAt(s, start, end) && r.value == s[start..end]
  {
    hide Index, Run, Next;
    var brace := Index(s, "{");
    BraceIndex(s);
    if brace.None? {
      return None;
    }
    var start := brace.value;
    var depth, inString, escaped := 0, false, false;
    EmptyRun(s, start);
    for i := start to |s|
      invariant Scan(depth, inString, escaped) == Run(START, s[start..i])
      invariant forall k :: start < k <= i ==> Run(START, s[start..k]).depth > 0
      invariant i == start ==> depth == 0 && !inString
    {
      var c := s[i];
      RunOne(s, start, i);
      if inString {
        if escaped {
          escaped := false;
        } else if c == '\\' {
          escaped := true;
        } else if c == '"' {
          inString := false;
        }
      } else if c == '"' {
        inString := true;
      } else if c == '{' {
        depth := depth + 1;
      } else if c == '}' {
        depth := depth - 1;
        if depth == 0 {
          assert ObjectAt(s, start, i + 1);
          return Some(s[start..i + 1]);
        }
      }
    }
    OnlyStart(s, start);
    r := None;
  }

  lemma EmptyRun(s: string, start: nat)
    requires start <= |s|
    ensures Run(START, s[start..start]) == START
  {
  }

  lemma RunOne(s: string, start: nat, i: nat)
    requires start <= i < |s|
    ensures var st, c := Run(START, s[start..i]), s[i];
            Run(START, s[start..i + 1]) ==
            if st.inString then
              (if st.escaped then st.(escaped := false)
               else if c == '\\' then st.(escaped := true)
               else if c == '"' then st.(inString := false) else st)
            else if c == '"' then st.(inString := true)
            else if c == '{' then st.(depth := st.depth + 1)
            else if c == '}' then st.(depth := st.depth - 1)
            else st
  {
    assert s[start..i + 1][..i - start] == s[start..i];
  }

  /** Without a closing brace there is no object anywhere. */
  lemma OnlyStart(s: string, start: nat)
    requires start < |s| && s[start] == '{' && forall k :: 0 <= k < start ==> s[k] != '{'
    requires forall k :: start < k <= |s| ==> Run(START, s[start..k]).depth > 0
    ensures !HasObject(s)
  {
    forall a: nat, b: nat ensures !ObjectAt(s, a, b) {
      assert a < start ==> s[a] != '{';
    }
  }

  lemma BraceIndex(s: string)
    ensures match Index(s, "{")
            case None => forall k :: 0 <= k < |s| ==> s[k] != '{'
            case Some(i) => i < |s| && s[i] == '{' && forall k :: 0 <= k < i ==> s[k] != '{'
  {
    forall k: nat | k < |s| ensures StartsAt(s, "{", k) <==> s[k] == '{' {
      assert s[k..k + 1] == [s[k]];
    }
  }

  // ---- Printed values ------------------------------------------------------------------------------

  /** One character of a string, or an escaped one (RFC 8259, section 7). */
  datatype Piece = Plain(c: char) | Escaped(c: char)

  /** A JSON value (RFC 8259, sections 2 to 7) with any white space around its tokens, also
      between the brackets of an empty array or object. */
  datatype Json =
    | Atom(text: string)
    | Text(pieces: seq<Piece>)
    | Array(blank: string, items: seq<Json>)
    | Object(blank: string, members: seq<Member>)
    | Spaced(before: string, value: Json, after: string)

  datatype Member = Member(before: string, key: seq<Piece>, middle: string, value: Json)

  predicate Blank(s: string) {
    forall i :: 0 <= i < |s| ==> s[i] in {' ', '\t', '\n', '\r'}
  }

  predicate NoMark(s: string) {
    forall i :: 0 <= i < |s| ==> s[i] != '"' && s[i] != '{' && s[i] != '}'
  }

  predicate GoodPieces(ps: seq<Piece>) {
    forall i :: 0 <= i < |ps| && ps[i].Plain? ==> ps[i].c != '"' && ps[i].c != '\\'
  }

  predicate WellFormed(j: Json) {
    match j
    case Atom(text) => NoMark(text)
    case Text(ps) => GoodPieces(ps)
    case Array(blank, items) => Blank(blank) && forall i :: 0 <= i < |items| ==> WellFormed(items[i])
    case Object(blank, members) =>
      Blank(blank) && forall i :: 0 <= i < |members| ==> WellFormedMember(members[i])
    case Spaced(before, value, after) => Blank(before) && Blank(after) && WellFormed(value)
  }

  predicate WellFormedMember(m: Member) {
    Blank(m.before) && Blank(m.middle) && GoodPieces(m.key) && WellFormed(m.value)
  }

  function PrintPieces(ps: seq<Piece>): string {
    if ps == [] then ""
    else PrintPieces(ps[..|ps| - 1]) + (if ps[|ps| - 1].Plain? then [ps[|ps| - 1].c] else ['\\', ps[|ps| - 1].c])
  }

  function PrintString(ps: seq<Piece>): string {
    "\"" + PrintPieces(ps) + "\""
  }

  function Print(j: Json): string
    decreases j
  {
    match j
    case Atom(text) => text
    case Text(ps) => PrintString(ps)
    case Array(blank, items) => "[" + (blank + PrintItems(items)) + "]"
    case Object(blank, members) => "{" + (blank + PrintMembers(members)) + "}"
    case Spaced(before, value, after) => before + Print(value) + after
  }

  function PrintItems(items: seq<Json>): string
    decreases items
  {
    if items == [] then ""
    else if |items| == 1 then Print(items[0])
    else Print(items[0]) + "," + PrintItems(items[1..])
  }

  function PrintMember(m: Member): string
    decreases m
  {
    m.before + PrintString(m.key) + m.middle + ":" + Print(m.value)
  }

  function PrintMembers(members: seq<Member>): string
    decreases members
  {
    if members == [] then ""
    else if |members| == 1 then PrintMember(members[0])
    else PrintMember(members[0]) + "," + PrintMembers(members[1..])
  }

  // ---- Balance ---------------------------------------------------------------------------------------

  /** Scanned from anywhere outside a string, the text ends where it began and never closes
      more than it opened. */
  ghost predicate Balanced(s: string) {
    Run(START, s) == START && forall k :: 0 <= k <= |s| ==> Run(START, s[..k]).depth >= 0
  }

  lemma RunConcat(st: Scan, a: string, b: string)
    ensures Run(st, a + b) == Run(Run(st, a), b)
  {
    if b == "" {
      assert a + b == a;
    } else {
      RunConcat(st, a, b[..|b| - 1]);
      assert (a + b)[..|a + b| - 1] == a + b[..|b| - 1];
    }
  }

  lemma RunShift(st: Scan, s: string, more: int)
    ensures Run(st.(depth := st.depth + more), s) == Run(st, s).(depth := Run(st, s).depth + more)
  {
    if s != "" {
      RunShift(st, s[..|s| - 1], more);
    }
  }

  lemma BalancedConcat(a: string, b: string)
    requires Balanced(a) && Balanced(b)
    ensures Balanced(a + b)
  {
    RunConcat(START, a, b);
    forall k | 0 <= k <= |a + b| ensures Run(START, (a + b)[..k]).depth >= 0 {
      if k <= |a| {
        assert (a + b)[..k] == a[..k];
      } else {
        assert (a + b)[..k] == a + b[..k - |a|];
        RunConcat(START, a, b[..k - |a|]);
      }
    }
  }

  lemma BalancedPlain(s: string)
    requires NoMark(s)
    ensures Balanced(s)
  {
    if s != "" {
      var init := s[..|s| - 1];
      BalancedPlain(init);
      forall k | 0 <= k <= |s| ensures Run(START, s[..k]).depth >= 0 {
        if k < |s| {
          assert s[..k] == init[..k];
        } else {
          assert s[..k] == s;
        }
      }
    }
  }

  /** Inside a string nothing counts until the closing quote. */
  lemma PiecesStayInside(ps: seq<Piece>, k: nat)
    requires GoodPieces(ps) && k <= |PrintPieces(ps)|
    ensures Run(Scan(0, true, false), PrintPieces(ps)) == Scan(0, true, false)
    ensures Run(Scan(0, true, false), PrintPieces(ps)[..k]).depth == 0
  {
    if ps != [] {
      var n := |ps| - 1;
      var init := PrintPieces(ps[..n]);
      var last := if ps[n].Plain? then [ps[n].c] else ['\\', ps[n].c];
      PiecesStayInside(ps[..n], if k <= |init| then k else 0);
      RunConcat(Scan(0, true, false), init, last);
      assert last[..|last| - 1] == if ps[n].Plain? then "" else ['\\'];
      LastPiece(ps[n]);
      if k <= |init| {
        assert PrintPieces(ps)[..k] == init[..k];
      } else {
        assert PrintPieces(ps)[..k] == init + last[..k - |init|];
        RunConcat(Scan(0, true, false), init, last[..k - |init|]);
      }
    }
  }

  lemma LastPiece(p: Piece)
    requires p.Plain? ==> p.c != '"' && p.c != '\\'
    ensures var last := if p.Plain? then [p.c] else ['\\', p.c];
            && Run(Scan(0, true, false), last) == Scan(0, true, false)
            && forall k :: 0 <= k <= |last| ==> Run(Scan(0, true, false), last[..k]).depth == 0
  {
    var last := if p.Plain? then [p.c] else ['\\', p.c];
    assert last[..0] == "" && last[..|last|] == last;
    if p.Escaped? {
      assert last[..1] == ['\\'] && ['\\'][..0] == "";
      assert Run(Scan(0, true, false), ['\\']) == Scan(0, true, true);
    }
  }

  lemma BalancedString(ps: seq<Piece>)
    requires GoodPieces(ps)
    ensures Balanced(PrintString(ps))
  {
    var quote, body := "\"", PrintPieces(ps);
    var s := PrintString(ps);
    assert quote[..0] == "";
    assert Run(START, quote) == Scan(0, true, false);
    PiecesStayInside(ps, 0);
    RunConcat(START, quote, body);
    RunConcat(START, quote + body, quote);
    assert Run(Scan(0, true, false), quote) == START;
    forall k | 0 <= k <= |s| ensures Run(START, s[..k]).depth >= 0 {
      if k == 0 {
        assert s[..k] == "";
      } else if k <= |body| + 1 {
        assert s[..k] == quote + body[..k - 1];
        RunConcat(START, quote, body[..k - 1]);
        PiecesStayInside(ps, k - 1);
      } else {
        assert s[..k] == s;
      }
    }
  }

  /** Between its braces a balanced text never comes back to depth zero. */
  lemma BracedStaysOpen(body: string, k: nat)
    requires Balanced(body) && k <= |body| + 2
    ensures var s := "{" + body + "}";
            Run(START, s[..k]).depth == if k == 0 || k == |s| then 0 else 1 + Run(START, body[..k - 1]).depth
    ensures Run(START, "{" + body + "}") == START
  {
    var s, brace := "{" + body + "}", "{";
    assert brace[..0] == "" && Run(START, brace) == Scan(1, false, false);
    RunConcat(START, brace, body);
    RunShift(START, body, 1);
    assert ("{" + body + "}")[..|body| + 1] == "{" + body;
    if k == 0 {
      assert s[..k] == "";
    } else if k < |s| {
      assert s[..k] == brace + body[..k - 1];
      RunConcat(START, brace, body[..k - 1]);
      RunShift(START, body[..k - 1], 1);
    } else {
      assert s[..k] == s;
    }
  }

  lemma BalancedBraces(body: string)
    requires Balanced(body)
    ensures Balanced("{" + body + "}")
  {
    var s := "{" + body + "}";
    BracedStaysOpen(body, 0);
    forall k | 0 <= k <= |s| ensures Run(START, s[..k]).depth >= 0 {
      BracedStaysOpen(body, k);
    }
  }

  lemma BalancedMark(s: string)
    requires |s| == 1 && s[0] != '"' && s[0] != '{' && s[0] != '}'
    ensures Balanced(s)
  {
    BalancedPlain(s);
  }

  lemma {:induction false} PrintBalanced(j: Json)
    requires WellFormed(j)
    ensures Balanced(Print(j))
    decreases j
  {
    match j
    case Atom(text) => BalancedPlain(text);
    case Text(ps) => BalancedString(ps);
    case Array(blank, items) =>
      ItemsBalanced(items);
      BalancedPlain(blank);
      BalancedConcat(blank, PrintItems(items));
      BalancedMark("[");
      BalancedMark("]");
      BalancedConcat("[", blank + PrintItems(items));
      BalancedConcat("[" + (blank + PrintItems(items)), "]");
    case Object(blank, members) =>
      MembersBalanced(members);
      BalancedPlain(blank);
      BalancedConcat(blank, PrintMembers(members));
      BalancedBraces(blank + PrintMembers(members));
    case Spaced(before, value, after) =>
      BalancedPlain(before);
      PrintBalanced(value);
      BalancedPlain(after);
      BalancedConcat(before, Print(value));
      BalancedConcat(before + Print(value), after);
  }

  lemma {:induction false} ItemsBalanced(items: seq<Json>)
    requires forall i :: 0 <= i < |items| ==> WellFormed(items[i])
    ensures Balanced(PrintItems(items))
    decreases items
  {
    if items == [] {
      BalancedPlain("");
    } else {
      PrintBalanced(items[0]);
      if |items| > 1 {
        ItemsBalanced(items[1..]);
        BalancedMark(",");
        BalancedConcat(Print(items[0]), ",");
        BalancedConcat(Print(items[0]) + ",", PrintItems(items[1..]));
      }
    }
  }

  lemma {:induction false} MemberBalanced(m: Member)
    requires WellFormedMember(m)
    ensures Balanced(PrintMember(m))
    decreases m
  {
    hide Balanced, PrintString;
    BalancedPlain(m.before);
    BalancedString(m.key);
    BalancedConcat(m.before, PrintString(m.key));
    BalancedPlain(m.middle);
    BalancedConcat(m.before + PrintString(m.key), m.middle);
    BalancedMark(":");
    BalancedConcat(m.before + PrintString(m.key) + m.middle, ":");
    PrintBalanced(m.value);
    BalancedConcat(m.before + PrintString(m.key) + m.middle + ":", Print(m.value));
  }

  lemma {:induction false} MembersBalanced(members: seq<Member>)
    requires forall i :: 0 <= i < |members| ==> WellFormedMember(members[i])
    ensures Balanced(PrintMembers(members))
    decreases members
  {
    if members == [] {
      BalancedPlain("");
    } else {
      MemberBalanced(members[0]);
      if |members| > 1 {
        MembersBalanced(members[1..]);
        BalancedMark(",");
        BalancedConcat(PrintMember(members[0]), ",");
        BalancedConcat(PrintMember(members[0]) + ",", PrintMembers(members[1..]));
      }
    }
  }

  // ---- The scan undoes printing ------------------------------------------------------------------

  /** The only stretch the scan can find. */
  ghost predicate Yields(s: string, text: string) {
    HasObject(s) && forall start: nat, end: nat :: ObjectAt(s, start, end) ==> s[start..end] == text
  }

  /** Any object, after text without a brace and before any text, is found exactly. */
  lemma ObjectFound(p: string, o: Json, q: string)
    requires o.Object? && WellFormed(o) && forall i :: 0 <= i < |p| ==> p[i] != '{'
    ensures Yields(p + Print(o) + q, Print(o))
  {
    MembersBalanced(o.members);
    BalancedPlain(o.blank);
    BalancedConcat(o.blank, PrintMembers(o.members));
    var body := o.blank + PrintMembers(o.members);
    hide Balanced, WellFormed, PrintMembers, ObjectAt;
    var s, text := p + Print(o) + q, Print(o);
    assert text == "{" + body + "}";
    BracesFound(p, body, q);
    assert s[|p|..|p| + |text|] == text;
    forall start: nat, end: nat | ObjectAt(s, start, end) ensures s[start..end] == text {
      SameEnd(s, |p|, |p| + |text|, start, end);
    }
  }

  lemma BracesFound(p: string, body: string, q: string)
    requires Balanced(body) && forall i :: 0 <= i < |p| ==> p[i] != '{'
    ensures ObjectAt(p + ("{" + body + "}") + q, |p|, |p| + |body| + 2)
  {
    hide Balanced, Run;
    var text := "{" + body + "}";
    var s := p + text + q;
    forall k: nat | k <= |text| ensures s[|p|..|p| + k] == text[..k] {
    }
    BracedStaysOpen(body, |text|);
    assert text[..|text|] == text;
    forall k | |p| < k < |p| + |text| ensures Run(START, s[|p|..k]).depth > 0 {
      var n := k - |p|;
      assert s[|p|..|p| + n] == text[..n];
      BracedStaysOpen(body, n);
      NeverBelow(body, n - 1);
    }
  }

  lemma NeverBelow(body: string, k: nat)
    requires Balanced(body) && k <= |body|
    ensures Run(START, body[..k]).depth >= 0
  {
  }

  lemma SameEnd(s: string, from: nat, to: nat, start: nat, end: nat)
    requires ObjectAt(s, from, to) && ObjectAt(s, start, end)
    ensures start == from && end == to
  {
  }

  predicate EdgeSolid(s: string) {
    s != "" && !IsSpace(s[0]) && !IsSpace(s[|s| - 1])
  }

  /** Trimming takes white space from what surrounds a solid text, and nothing else. */
  lemma TrimAround(p: string, text: string, q: string) returns (a: string, b: string)
    requires EdgeSolid(text)
    ensures TrimSpace(p + text + q) == a + text + b
    ensures |a| <= |p| && a == p[|p| - |a|..] && |b| <= |q| && b == q[..|b|]
  {
    a := TrimBefore(p, text + q);
    assert p + text + q == p + (text + q);
    b := TrimAfter(a + text, q);
    assert a + (text + q) == a + text + q;
  }

  lemma TrimBefore(p: string, t: string) returns (a: string)
    requires t != "" && !IsSpace(t[0])
    ensures TrimLeft(p + t) == a + t && |a| <= |p| && a == p[|p| - |a|..]
  {
    if p == "" || !IsSpace(p[0]) {
      a := p;
    } else {
      a := TrimBefore(p[1..], t);
      assert (p + t)[1..] == p[1..] + t;
    }
  }

  lemma TrimAfter(t: string, q: string) returns (b: string)
    requires t != "" && !IsSpace(t[|t| - 1])
    ensures TrimRight(t + q) == t + b && |b| <= |q| && b == q[..|b|]
  {
    if q == "" || !IsSpace(q[|q| - 1]) {
      b := q;
    } else {
      b := TrimAfter(t, q[..|q| - 1]);
      assert (t + q)[..|t + q| - 1] == t + q[..|q| - 1];
    }
  }

  predicate NoTick(s: string) {
    forall i :: 0 <= i < |s| ==> s[i] != '`'
  }

  /** Around an object without a code fence the scanned text is the trimmed text. */
  lemma {:induction false} ExtractInvertsPrint(p: string, o: Json, q: string)
    requires o.Object? && WellFormed(o) && forall i :: 0 <= i < |p| ==> p[i] != '{'
    requires forall i: nat :: !StartsAt(p + Print(o) + q, FENCE, i)
    ensures Yields(Scanned(p + Print(o) + q), Print(o))
  {
    var a, b := TrimAround(p, Print(o), q);
    var raw, s := p + Print(o) + q, a + Print(o) + b;
    var cut := |p| - |a|;
    assert s == raw[cut..cut + |s|];
    forall i: nat ensures !StartsAt(s, FENCE, i) {
      assert i + 3 <= |s| ==> s[i..i + 3] == raw[cut + i..cut + i + 3];
      assert !StartsAt(raw, FENCE, cut + i);
    }
    assert Index(s, FENCE) == None;
    forall i | 0 <= i < |a| ensures a[i] != '{' {
      assert a[i] == p[cut + i];
    }
    ObjectFound(a, o, b);
  }

  lemma FirstFence(a: string, rest: string)
    requires NoTick(a)
    ensures Index(a + FENCE + rest, FENCE) == Some(|a|)
  {
    var s := a + FENCE + rest;
    assert s[|a|..|a| + 3] == FENCE;
    assert StartsAt(s, FENCE, |a|);
    forall i: nat | i < |a| ensures !StartsAt(s, FENCE, i) {
      if i + 3 <= |s| {
        assert s[i..i + 3][0] == s[i] == a[i];
      }
    }
  }

  lemma SameStart(x: string, y: string, z: string)
    requires |x| >= 4
    ensures StartsAt(x + y, "json", 0) <==> StartsAt(x + z, "json", 0)
  {
    assert (x + y)[0..4] == x[..4] == (x + z)[0..4];
  }

  /** The language tag of a fence goes, and nothing else. */
  lemma TagGoes(tag: string, body: string, b: string)
    requires |body| >= 1
    requires tag == "json" || (tag == "" && !StartsAt(body + FENCE, "json", 0))
    ensures AfterLabel(tag + body + FENCE + b) == body + FENCE + b
  {
    var rest := tag + body + FENCE + b;
    if tag == "json" {
      assert rest[0..4] == "json";
      assert rest[4..] == body + FENCE + b;
    } else {
      assert rest == (body + FENCE) + b;
      assert body + FENCE == (body + FENCE) + "";
      SameStart(body + FENCE, b, "");
    }
  }

  /** A closed fence gives its inside. */
  lemma FenceInside(a: string, tag: string, body: string, b: string)
    requires NoTick(a) && NoTick(body) && |body| >= 1
    requires tag == "json" || (tag == "" && !StartsAt(body + FENCE, "json", 0))
    ensures var s := a + (FENCE + tag + body + FENCE) + b;
            && Index(s, FENCE) == Some(|a|)
            && var rest := AfterLabel(s[|a| + 3..]);
            Index(rest, FENCE) == Some(|body|) && rest[..|body|] == body
  {
    hide Index, AfterLabel, StartsAt;
    var s, rest := a + (FENCE + tag + body + FENCE) + b, tag + body + FENCE + b;
    assert s == a + FENCE + rest;
    FirstFence(a, rest);
    assert s[|a| + 3..] == rest;
    TagGoes(tag, body, b);
    FirstFence(body, b);
  }

  /** Inside a closed code fence, labelled or not, the object is found as well. */
  lemma {:induction false} FencedObjectFound(p: string, tag: string, before: string, o: Json, after: string, q: string)
    requires o.Object? && WellFormed(o) && NoTick(p) && NoTick(before + Print(o) + after)
    requires forall i :: 0 <= i < |before| ==> before[i] != '{'
    requires tag == "json" || (tag == "" && !StartsAt(before + Print(o) + after + FENCE, "json", 0))
    ensures Yields(Scanned(p + (FENCE + tag + (before + Print(o) + after) + FENCE) + q), Print(o))
  {
    var body := before + Print(o) + after;
    ObjectFound(before, o, after);
    assert |Print(o)| >= 2;
    hide Print, WellFormed, Yields, Index, AfterLabel, IsSpace, StartsAt, TrimSpace;
    var block := FENCE + tag + body + FENCE;
    SolidFence(tag, body);
    var a, b := TrimAround(p, block, q);
    forall i | 0 <= i < |a| ensures a[i] != '`' {
      assert a[i] == p[|p| - |a| + i];
    }
    FenceInside(a, tag, body, b);
  }

  lemma SolidFence(tag: string, body: string)
    ensures EdgeSolid(FENCE + tag + body + FENCE)
  {
  }
}
