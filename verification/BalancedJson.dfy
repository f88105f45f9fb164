// Cutting one balanced JSON object or array out of surrounding text.

module BalancedJson {
  import opened Collections

  // The two kinds of bracket the scanner is called with.
  datatype Kind = Braces | Brackets

  function OpenOf(k: Kind): char { if k.Braces? then '{' else '[' }

  function CloseOf(k: Kind): char { if k.Braces? then '}' else ']' }

  // ---------- The scanner's state ----------

  datatype Scanner = Scanner(depth: int, inStr: bool, escape: bool)

  const START := Scanner(0, false, false)

  function Read(k: Kind, ch: char, st: Scanner): Scanner {
    if st.inStr then
      if st.escape then st.(escape := false)
      else if ch == '\\' then st.(escape := true)
      else if ch == '"' then st.(inStr := false)
      else st
    else if ch == '"' then st.(inStr := true)
    else if ch == OpenOf(k) then st.(depth := st.depth + 1)
    else if ch == CloseOf(k) then st.(depth := st.depth - 1)
    else st
  }

  function Scan(k: Kind, s: string, st: Scanner): Scanner {
    if s == "" then st else Scan(k, s[1..], Read(k, s[0], st))
  }

  // At least one bracket is open after every character.
  predicate StaysOpen(k: Kind, s: string, st: Scanner) {
    s == "" || (Read(k, s[0], st).depth > 0 && StaysOpen(k, s[1..], Read(k, s[0], st)))
  }

  lemma {:induction false} ScanConcat(k: Kind, a: string, b: string, st: Scanner)
    ensures Scan(k, a + b, st) == Scan(k, b, Scan(k, a, st))
    ensures StaysOpen(k, a + b, st) <==> StaysOpen(k, a, st) && StaysOpen(k, b, Scan(k, a, st))
    decreases a
  {
    if a == "" {
      assert a + b == b;
    } else {
      ScanConcat(k, a[1..], b, Read(k, a[0], st));
      assert (a + b)[1..] == a[1..] + b;
    }
  }

  // The first n characters are balanced, and no fewer are.
  ghost predicate Balanced(k: Kind, s: string, n: nat) {
    && 0 < n <= |s|
    && StaysOpen(k, s[..n - 1], START)
    && Scan(k, s[..n], START).depth == 0
  }

  lemma BalancedOnce(k: Kind, s: string, n: nat, m: nat)
    requires Balanced(k, s, n) && Balanced(k, s, m)
    ensures n == m
  {
    if n < m { NotOpenAt(k, s, n, m); }
    if m < n { NotOpenAt(k, s, m, n); }
  }

  lemma NotOpenAt(k: Kind, s: string, n: nat, m: nat)
    requires 0 < n < m <= |s| && StaysOpen(k, s[..m - 1], START)
    ensures Scan(k, s[..n], START).depth > 0
  {
    assert s[..m - 1] == s[..n] + s[n..m - 1];
    ScanConcat(k, s[..n], s[n..m - 1], START);
    OpenAtEnd(k, s[..n], START);
  }

  lemma {:induction false} OpenAtEnd(k: Kind, s: string, st: Scanner)
    requires StaysOpen(k, s, st) && s != ""
    ensures Scan(k, s, st).depth > 0
    decreases s
  {
    if |s| > 1 { OpenAtEnd(k, s[1..], Read(k, s[0], st)); }
  }

  // ---------- _extract_balanced ----------

  // Where the character first occurs, or the length.
  function FirstOf(text: string, ch: char): (k: nat)
    ensures k <= |text| && ch !in text[..k] && (k < |text| ==> text[k] == ch)
  {
    if text == "" || text[0] == ch then 0 else 1 + FirstOf(text[1..], ch)
  }

  method Find(text: string, ch: char) returns (start: nat)
    ensures start == FirstOf(text, ch)
  {
    start := 0;
    while start < |text| && text[start] != ch
      invariant start <= |text| && FirstOf(text, ch) == start + FirstOf(text[start..], ch)
    {
      assert text[start..][1..] == text[start + 1..];
      start := start + 1;
    }
  }

  // From the first opening bracket on.
  function FromOpening(text: string, k: Kind): string {
    text[FirstOf(text, OpenOf(k))..]
  }

  // The shortest balanced stretch from the first opening bracket on, if there is one.
  method ExtractBalanced(text: string, k: Kind) returns (found: Option<string>)
    ensures found.Some? ==> Balanced(k, FromOpening(text, k), |found.value|) && found.value <= FromOpening(text, k)
    ensures found.None? ==> StaysOpen(k, FromOpening(text, k), START)
  {
    var start := Find(text, OpenOf(k));
    if start == |text| { return None; }
    var depth, inStr, escape := 0, false, false;
    ghost var s := text[start..];
    var i := start;
    while i < |text|
      invariant start <= i <= |text|
      invariant Scan(k, s[..i - start], START) == Scanner(depth, inStr, escape)
      invariant StaysOpen(k, s[..i - start], START) && (i > start ==> depth > 0)
    {
      var ch := text[i];
      ScanOne(k, s, i - start);
      i := i + 1;
      if inStr {
        if escape {
          escape := false;
        } else if ch == '\\' {
          escape := true;
        } else if ch == '"' {
          inStr := false;
        }
        continue;
      }
      if ch == '"' {
        inStr := true;
        continue;
      }
      if ch == OpenOf(k) {
        depth := depth + 1;
      } else if ch == CloseOf(k) {
        depth := depth - 1;
        if depth == 0 {
          assert s[..i - start] == text[start..i];
          return Some(text[start..i]);
        }
      }
    }
    assert s[..i - start] == s;
    found := None;
  }

  lemma ScanOne(k: Kind, s: string, n: nat)
    requires n < |s|
    ensures Scan(k, s[..n + 1], START) == Read(k, s[n], Scan(k, s[..n], START))
    ensures StaysOpen(k, s[..n + 1], START) <==>
      StaysOpen(k, s[..n], START) && Read(k, s[n], Scan(k, s[..n], START)).depth > 0
  {
    assert s[..n + 1] == s[..n] + [s[n]];
    ScanConcat(k, s[..n], [s[n]], START);
  }

  // ---------- Printing ----------

  datatype Json =
    | Null
    | Bool(b: bool)
    | Num(text: string)
    | Str(chars: string)
    | Arr(items: Items)
    | Obj(members: Members)

  datatype Items = NoItems | Item(head: Json, tail: Items)

  datatype Members = NoMembers | Member(key: string, value: Json, rest: Members)

  // Separators as json.dumps takes them: "," and ":" with any padding.
  datatype Style = Style(comma: string, colon: string)

  // Nothing in it that the scanner looks at.
  predicate Plain(s: string) {
    forall c :: c in s ==> c !in {'{', '}', '[', ']', '"', '\\'}
  }

  function HexDigit(n: nat): char
    requires n < 16
  {
    "0123456789abcdef"[n]
  }

  function EscapeChar(c: char): string {
    if c == '"' then "\\\""
    else if c == '\\' then "\\\\"
    else if c == '\n' then "\\n"
    else if c == '\r' then "\\r"
    else if c == '\t' then "\\t"
    else if c as int == 8 then "\\b"
    else if c as int == 12 then "\\f"
    else if (c as int) < 32 then "\\u00" + [HexDigit(c as int / 16), HexDigit(c as int % 16)]
    else [c]
  }

  function Escape(s: string): string {
    if s == "" then "" else EscapeChar(s[0]) + Escape(s[1..])
  }

  function PrintString(s: string): string { "\"" + Escape(s) + "\"" }

  function Print(j: Json, style: Style): string {
    match j
    case Null => "null"
    case Bool(b) => if b then "true" else "false"
    case Num(text) => text
    case Str(s) => PrintString(s)
    case Arr(items) => "[" + PrintItems(items, style) + "]"
    case Obj(members) => "{" + PrintMembers(members, style) + "}"
  }

  function PrintItems(items: Items, style: Style): string {
    match items
    case NoItems => ""
    case Item(head, NoItems) => Print(head, style)
    case Item(head, tail) => Print(head, style) + style.comma + PrintItems(tail, style)
  }

  function PrintMembers(members: Members, style: Style): string {
    match members
    case NoMembers => ""
    case Member(key, value, NoMembers) => PrintString(key) + style.colon + Print(value, style)
    case Member(key, value, rest) =>
      PrintString(key) + style.colon + Print(value, style) + style.comma + PrintMembers(rest, style)
  }

  // Numbers are printed without brackets, quotes or backslashes.
  predicate PlainNumbers(j: Json) {
    match j
    case Num(text) => Plain(text)
    case Arr(items) => PlainItems(items)
    case Obj(members) => PlainMembers(members)
    case _ => true
  }

  predicate PlainItems(items: Items) {
    items.Item? ==> PlainNumbers(items.head) && PlainItems(items.tail)
  }

  predicate PlainMembers(members: Members) {
    members.Member? ==> PlainNumbers(members.value) && PlainMembers(members.rest)
  }

  // ---------- Printed text keeps the depth ----------

  // Scanned inside an open bracket, the text leaves the state as it was and never closes it.
  ghost predicate Neutral(k: Kind, s: string) {
    forall d :: d > 0 ==> NeutralAt(k, s, d)
  }

  predicate NeutralAt(k: Kind, s: string, d: int) {
    StaysOpen(k, s, Scanner(d, false, false)) && Scan(k, s, Scanner(d, false, false)) == Scanner(d, false, false)
  }

  lemma NeutralConcat(k: Kind, a: string, b: string)
    requires Neutral(k, a) && Neutral(k, b)
    ensures Neutral(k, a + b)
  {
    forall d | d > 0 ensures NeutralAt(k, a + b, d) {
      assert NeutralAt(k, a, d) && NeutralAt(k, b, d);
      ScanConcat(k, a, b, Scanner(d, false, false));
    }
  }

  lemma {:induction false} PlainIsNeutral(k: Kind, s: string)
    requires Plain(s)
    ensures Neutral(k, s)
  {
    if s != "" {
      assert forall c :: c in s[1..] ==> c in s;
      PlainIsNeutral(k, s[1..]);
      forall d | d > 0 ensures NeutralAt(k, s, d) {
        assert NeutralAt(k, s[1..], d) && s[0] in s;
      }
    }
  }

  // Inside a string literal nothing is counted, and an escaped quote does not end it.
  lemma EscapedChar(k: Kind, c: char, d: int)
    requires d > 0
    ensures Scan(k, EscapeChar(c), Scanner(d, true, false)) == Scanner(d, true, false)
    ensures StaysOpen(k, EscapeChar(c), Scanner(d, true, false))
  {
    var e, st := EscapeChar(c), Scanner(d, true, false);
    if |e| == 2 {
      assert e[1..][1..] == "";
      assert Scan(k, e[1..], st.(escape := true)) == st;
    } else if |e| == 6 {
      HexIsPlain(c as int / 16);
      HexIsPlain(c as int % 16);
      assert e[1..][0] == 'u' && e[2..][0] == '0' && e[3..][0] == '0';
      assert e[1..][1..] == e[2..] && e[2..][1..] == e[3..] && e[3..][1..] == e[4..] && e[4..][1..] == e[5..]
        && e[5..][1..] == "";
      InString(k, e[2..], d);
      assert Scan(k, e[1..], st.(escape := true)) == Scan(k, e[2..], st);
    } else {
      assert e[1..] == "";
    }
  }

  lemma HexIsPlain(n: nat)
    requires n < 16
    ensures HexDigit(n) !in {'"', '\\'}
  {
  }

  lemma {:induction false} InString(k: Kind, s: string, d: int)
    requires d > 0 && forall c :: c in s ==> c !in {'"', '\\'}
    ensures Scan(k, s, Scanner(d, true, false)) == Scanner(d, true, false)
    ensures StaysOpen(k, s, Scanner(d, true, false))
  {
    if s != "" {
      assert s[0] in s && forall c :: c in s[1..] ==> c in s;
      InString(k, s[1..], d);
    }
  }

  lemma {:induction false} EscapedString(k: Kind, s: string, d: int)
    requires d > 0
    ensures Scan(k, Escape(s), Scanner(d, true, false)) == Scanner(d, true, false)
    ensures StaysOpen(k, Escape(s), Scanner(d, true, false))
  {
    if s != "" {
      EscapedChar(k, s[0], d);
      EscapedString(k, s[1..], d);
      ScanConcat(k, EscapeChar(s[0]), Escape(s[1..]), Scanner(d, true, false));
    }
  }

  lemma StringIsNeutral(k: Kind, s: string)
    ensures Neutral(k, PrintString(s))
  {
    forall d | d > 0 ensures NeutralAt(k, PrintString(s), d) {
      var body := Escape(s) + "\"";
      EscapedString(k, s, d);
      ScanConcat(k, Escape(s), "\"", Scanner(d, true, false));
      assert PrintString(s) == "\"" + body && PrintString(s)[1..] == body;
      assert "\""[1..] == "";
    }
  }

  // Enclosing neutral text in brackets of either kind keeps it neutral.
  lemma EnclosedIsNeutral(k: Kind, other: Kind, s: string)
    requires Neutral(k, s)
    ensures Neutral(k, [OpenOf(other)] + s + [CloseOf(other)])
  {
    var whole := [OpenOf(other)] + s + [CloseOf(other)];
    forall d | d > 0 ensures NeutralAt(k, whole, d) {
      var inner := if k == other then d + 1 else d;
      assert NeutralAt(k, s, inner);
      assert whole[1..] == s + [CloseOf(other)];
      ScanConcat(k, s, [CloseOf(other)], Scanner(inner, false, false));
      assert [CloseOf(other)][1..] == "";
    }
  }

  predicate PlainStyle(style: Style) { Plain(style.comma) && Plain(style.colon) }

  lemma {:induction false} PrintIsNeutral(k: Kind, j: Json, style: Style)
    requires PlainStyle(style) && PlainNumbers(j)
    ensures Neutral(k, Print(j, style))
    decreases j
  {
    match j
    case Null => PlainIsNeutral(k, "null");
    case Bool(b) => PlainIsNeutral(k, if b then "true" else "false");
    case Num(text) => PlainIsNeutral(k, text);
    case Str(s) => StringIsNeutral(k, s);
    case Arr(items) =>
      ItemsAreNeutral(k, items, style);
      EnclosedIsNeutral(k, Brackets, PrintItems(items, style));
    case Obj(members) =>
      MembersAreNeutral(k, members, style);
      EnclosedIsNeutral(k, Braces, PrintMembers(members, style));
  }

  lemma {:induction false} ItemsAreNeutral(k: Kind, items: Items, style: Style)
    requires PlainStyle(style) && PlainItems(items)
    ensures Neutral(k, PrintItems(items, style))
    decreases items
  {
    PlainIsNeutral(k, "");
    if items.Item? {
      PrintIsNeutral(k, items.head, style);
      ItemsAreNeutral(k, items.tail, style);
      PlainIsNeutral(k, style.comma);
      NeutralConcat(k, Print(items.head, style), style.comma);
      NeutralConcat(k, Print(items.head, style) + style.comma, PrintItems(items.tail, style));
    }
  }

  lemma {:induction false} MembersAreNeutral(k: Kind, members: Members, style: Style)
    requires PlainStyle(style) && PlainMembers(members)
    ensures Neutral(k, PrintMembers(members, style))
    decreases members
  {
    PlainIsNeutral(k, "");
    if members.Member? {
      var key, value := PrintString(members.key), Print(members.value, style);
      StringIsNeutral(k, members.key);
      PlainIsNeutral(k, style.colon);
      PrintIsNeutral(k, members.value, style);
      NeutralConcat(k, key, style.colon);
      NeutralConcat(k, key + style.colon, value);
      MembersAreNeutral(k, members.rest, style);
      PlainIsNeutral(k, style.comma);
      NeutralConcat(k, key + style.colon + value, style.comma);
      NeutralConcat(k, key + style.colon + value + style.comma, PrintMembers(members.rest, style));
    }
  }

  // ---------- Extraction undoes printing ----------

  function KindOf(j: Json): Kind
    requires j.Obj? || j.Arr?
  {
    if j.Obj? then Braces else Brackets
  }

  function Inside(j: Json, style: Style): string
    requires j.Obj? || j.Arr?
  {
    if j.Obj? then PrintMembers(j.members, style) else PrintItems(j.items, style)
  }

  // A printed object or array is balanced as a whole, whatever follows it.
  lemma PrintedIsBalanced(j: Json, style: Style, suffix: string)
    requires (j.Obj? || j.Arr?) && PlainStyle(style) && PlainNumbers(j)
    ensures Balanced(KindOf(j), Print(j, style) + suffix, |Print(j, style)|)
  {
    var k, inside, printed := KindOf(j), Inside(j, style), Print(j, style);
    if j.Obj? { MembersAreNeutral(k, j.members, style); } else { ItemsAreNeutral(k, j.items, style); }
    assert NeutralAt(k, inside, 1);
    assert printed == [OpenOf(k)] + inside + [CloseOf(k)];
    var front := [OpenOf(k)] + inside;
    assert front[1..] == inside;
    assert (printed + suffix)[..|printed|] == printed && (printed + suffix)[..|printed| - 1] == front;
    ScanConcat(k, front, [CloseOf(k)], START);
    assert [CloseOf(k)][1..] == "";
  }

  lemma BalancedIsClosed(k: Kind, s: string, n: nat)
    requires Balanced(k, s, n)
    ensures !StaysOpen(k, s, START)
  {
    assert s == s[..n] + s[n..];
    ScanConcat(k, s[..n], s[n..], START);
    if StaysOpen(k, s[..n], START) { OpenAtEnd(k, s[..n], START); }
  }

  // From any text whose prefix holds no opening bracket of the kind, extraction returns exactly
  // the printed value, whatever its strings hold and whatever follows it.
  method ExtractPrinted(prefix: string, j: Json, style: Style, suffix: string) returns (found: Option<string>)
    requires (j.Obj? || j.Arr?) && PlainStyle(style) && PlainNumbers(j) && OpenOf(KindOf(j)) !in prefix
    ensures found == Some(Print(j, style))
  {
    var k, printed := KindOf(j), Print(j, style);
    var text := prefix + printed + suffix;
    found := ExtractBalanced(text, k);
    assert text[|prefix|] == OpenOf(k) && text[..|prefix|] == prefix;
    FirstIsUnique(text, OpenOf(k), FirstOf(text, OpenOf(k)), |prefix|);
    assert FromOpening(text, k) == printed + suffix;
    PrintedIsBalanced(j, style, suffix);
    BalancedIsClosed(k, printed + suffix, |printed|);
    BalancedOnce(k, printed + suffix, |found.value|, |printed|);
    assert found.value == (printed + suffix)[..|found.value|];
    assert (printed + suffix)[..|printed|] == printed;
  }

  lemma FirstIsUnique(text: string, ch: char, a: nat, b: nat)
    requires a <= |text| && ch !in text[..a] && (a < |text| ==> text[a] == ch)
    requires b < |text| && ch !in text[..b] && text[b] == ch
    ensures a == b
  {
    forall i | 0 <= i < a ensures text[i] != ch { assert text[..a][i] in text[..a]; }
    forall i | 0 <= i < b ensures text[i] != ch { assert text[..b][i] in text[..b]; }
  }
}
