// Reading printed JSON back: the value found in a model's text is the one that was meant.

module JsonReader {
  import opened Collections
  import opened BalancedJson

  // ---------- Strings ----------

  ghost function HexValue(c: char): Option<nat> {
    if '0' <= c <= '9' then Some(c as int - '0' as int)
    else if 'a' <= c <= 'f' then Some(c as int - 'a' as int + 10)
    else if 'A' <= c <= 'F' then Some(c as int - 'A' as int + 10)
    else None
  }

  // What the text after a backslash stands for, and how long it is; surrogate pairs are not read.
  ghost function Unescape(s: string): Option<(char, nat)> {
    if s == "" then None
    else match s[0]
      case '"' => Some(('"', 1))
      case '\\' => Some(('\\', 1))
      case '/' => Some(('/', 1))
      case 'n' => Some(('\n', 1))
      case 'r' => Some(('\r', 1))
      case 't' => Some(('\t', 1))
      case 'b' => Some((8 as char, 1))
      case 'f' => Some((12 as char, 1))
      case 'u' => if |s| < 5 then None else UnicodeEscape(s[1], s[2], s[3], s[4])
      case _ => None
  }

  ghost function UnicodeEscape(a: char, b: char, c: char, d: char): Option<(char, nat)> {
    if HexValue(a).None? || HexValue(b).None? || HexValue(c).None? || HexValue(d).None? then None
    else
      var n := 4096 * HexValue(a).value + 256 * HexValue(b).value + 16 * HexValue(c).value + HexValue(d).value;
      if n < 0xD800 then Some((n as char, 5)) else None
  }

  // The characters up to the closing quote, and what follows it.
  ghost function ReadChars(s: string): Option<(string, string)> {
    if s == "" then None
    else if s[0] == '"' then Some(("", s[1..]))
    else
      var step := if s[0] == '\\' then Unescape(s[1..]) else Some((s[0], 0));
      if step.None? || 1 + step.value.1 > |s| then None
      else match ReadChars(s[1 + step.value.1..])
        case Some((chars, rest)) => Some(([step.value.0] + chars, rest))
        case None => None
  }

  lemma HexRoundTrip(n: nat)
    requires n < 16
    ensures HexValue(HexDigit(n)) == Some(n)
  {
  }

  // An escaped character is read as the character it stands for.
  lemma ReadsEscaped(c: char, rest: string)
    ensures ReadChars(EscapeChar(c) + rest) == match ReadChars(rest)
      case Some((chars, after)) => Some(([c] + chars, after))
      case None => None
  {
    var e := EscapeChar(c);
    var s := e + rest;
    if |e| == 6 {
      var n := c as int;
      HexRoundTrip(n / 16);
      HexRoundTrip(n % 16);
      assert s[1..][0] == 'u' && s[1..][1] == '0' && s[1..][2] == '0';
      assert s[1..][3] == HexDigit(n / 16) && s[1..][4] == HexDigit(n % 16);
      assert Unescape(s[1..]) == Some((c, 5));
      assert s[6..] == rest;
    } else if |e| == 2 {
      assert s[1..][0] == e[1];
      assert Unescape(s[1..]) == Some((c, 1));
      assert s[2..] == rest;
    } else {
      assert s[1..] == rest;
    }
  }

  lemma {:induction false} ReadsString(chars: string, rest: string)
    ensures ReadChars(Escape(chars) + "\"" + rest) == Some((chars, rest))
  {
    if chars == "" {
      assert Escape(chars) + "\"" + rest == "\"" + rest;
      assert ("\"" + rest)[1..] == rest;
    } else {
      ReadsString(chars[1..], rest);
      ReadsEscaped(chars[0], Escape(chars[1..]) + "\"" + rest);
      assert Escape(chars) + "\"" + rest == EscapeChar(chars[0]) + (Escape(chars[1..]) + "\"" + rest);
      assert [chars[0]] + chars[1..] == chars;
    }
  }

  // ---------- Values ----------

  ghost predicate NumberChar(c: char) {
    '0' <= c <= '9' || c in {'-', '+', '.', 'e', 'E'}
  }

  ghost function NumberLength(s: string): (n: nat)
    ensures n <= |s|
  {
    if s == "" || !NumberChar(s[0]) then 0 else 1 + NumberLength(s[1..])
  }

  ghost function ReadValue(s: string, style: Style): Option<(Json, string)>
    decreases |s|, 0
  {
    if s == "" then None
    else if s[0] == '"' then
      match ReadChars(s[1..])
      case Some((chars, rest)) => Some((Str(chars), rest))
      case None => None
    else if s[0] == '[' then
      if |s| > 1 && s[1] == ']' then Some((Arr(NoItems), s[2..]))
      else match ReadItems(s[1..], style)
        case Some((items, rest)) => Some((Arr(items), rest))
        case None => None
    else if s[0] == '{' then
      if |s| > 1 && s[1] == '}' then Some((Obj(NoMembers), s[2..]))
      else match ReadMembers(s[1..], style)
        case Some((members, rest)) => Some((Obj(members), rest))
        case None => None
    else if "null" <= s then Some((Null, s[4..]))
    else if "true" <= s then Some((Bool(true), s[4..]))
    else if "false" <= s then Some((Bool(false), s[5..]))
    else if NumberLength(s) > 0 then Some((Num(s[..NumberLength(s)]), s[NumberLength(s)..]))
    else None
  }

  // The items up to the closing bracket, and what follows it.
  ghost function ReadItems(s: string, style: Style): Option<(Items, string)>
    decreases |s|, 1
  {
    match ReadValue(s, style)
    case None => None
    case Some((head, rest)) =>
      if rest != "" && rest[0] == ']' then Some((Item(head, NoItems), rest[1..]))
      else if style.comma <= rest && |rest| - |style.comma| < |s| then
        match ReadItems(rest[|style.comma|..], style)
        case Some((tail, after)) => Some((Item(head, tail), after))
        case None => None
      else None
  }

  // The members up to the closing brace, and what follows it.
  ghost function ReadMembers(s: string, style: Style): Option<(Members, string)>
    decreases |s|, 1
  {
    if s == "" || s[0] != '"' then None
    else match ReadChars(s[1..])
      case None => None
      case Some((key, rest)) =>
        if !(style.colon <= rest) || |rest| >= |s| then None
        else match ReadValue(rest[|style.colon|..], style)
          case None => None
          case Some((value, after)) =>
            if after != "" && after[0] == '}' then Some((Member(key, value, NoMembers), after[1..]))
            else if style.comma <= after && |after| - |style.comma| < |s| then
              match ReadMembers(after[|style.comma|..], style)
              case Some((more, last)) => Some((Member(key, value, more), last))
              case None => None
            else None
  }

  // ---------- Reading undoes printing ----------

  // Separators as json.dumps takes them: a comma first, and a colon that can be seen.
  ghost predicate GoodStyle(style: Style) {
    PlainStyle(style) && style.comma != "" && style.comma[0] == ',' && style.colon != ""
  }

  ghost predicate GoodNumber(text: string) {
    text != "" && forall c :: c in text ==> NumberChar(c)
  }

  ghost predicate GoodNumbers(j: Json) {
    match j
    case Num(text) => GoodNumber(text)
    case Arr(items) => GoodItems(items)
    case Obj(members) => GoodMembers(members)
    case _ => true
  }

  ghost predicate GoodItems(items: Items) {
    items.Item? ==> GoodNumbers(items.head) && GoodItems(items.tail)
  }

  ghost predicate GoodMembers(members: Members) {
    members.Member? ==> GoodNumbers(members.value) && GoodMembers(members.rest)
  }

  // A number does not run on into what follows it.
  ghost predicate Ends(rest: string) {
    rest == "" || !NumberChar(rest[0])
  }

  lemma {:induction false} NumberStops(text: string, rest: string)
    requires (forall c :: c in text ==> NumberChar(c)) && Ends(rest)
    ensures NumberLength(text + rest) == |text|
  {
    if text == "" {
      assert text + rest == rest;
    } else {
      assert text[0] in text && forall c :: c in text[1..] ==> c in text;
      NumberStops(text[1..], rest);
      assert (text + rest)[1..] == text[1..] + rest;
    }
  }

  lemma StartsWell(j: Json, style: Style)
    requires GoodNumbers(j)
    ensures Print(j, style) != "" && Print(j, style)[0] !in {']', '}'}
  {
    if j.Num? { assert j.text[0] in j.text; }
  }

  lemma ReadsNumber(text: string, style: Style, rest: string)
    requires GoodNumber(text) && Ends(rest)
    ensures ReadValue(text + rest, style) == Some((Num(text), rest))
  {
    var s := text + rest;
    NumberStops(text, rest);
    assert text[0] in text && s[0] == text[0] && NumberChar(s[0]);
    assert s[..|text|] == text && s[|text|..] == rest;
  }

  lemma ReadsLiteral(j: Json, style: Style, rest: string)
    requires j.Null? || j.Bool?
    ensures ReadValue(Print(j, style) + rest, style) == Some((j, rest))
  {
    var s, n := Print(j, style) + rest, |Print(j, style)|;
    assert s[..n] == Print(j, style) && s[n..] == rest;
  }

  lemma {:induction false} ReadsPrinted(j: Json, style: Style, rest: string)
    requires GoodStyle(style) && GoodNumbers(j) && (j.Num? ==> Ends(rest))
    ensures ReadValue(Print(j, style) + rest, style) == Some((j, rest))
    decreases j
  {
    match j
    case Arr(items) => ReadsArray(items, style, rest);
    case Obj(members) => ReadsObject(members, style, rest);
    case Num(text) => ReadsNumber(text, style, rest);
    case Str(chars) => ReadsKey(chars, rest);
    case _ => ReadsLiteral(j, style, rest);
  }

  lemma {:induction false} ReadsArray(items: Items, style: Style, rest: string)
    requires GoodStyle(style) && GoodItems(items)
    ensures ReadValue(Print(Arr(items), style) + rest, style) == Some((Arr(items), rest))
    decreases items, 1
  {
    if items.NoItems? {
      assert (Print(Arr(items), style) + rest)[2..] == rest;
    } else {
      ReadsItems(items, style, rest);
      ItemsStartWell(items, style);
      Bracketed(PrintItems(items, style), style, items, rest);
    }
  }

  lemma Bracketed(inside: string, style: Style, items: Items, rest: string)
    requires inside != "" && inside[0] != ']'
    requires ReadItems(inside + "]" + rest, style) == Some((items, rest))
    ensures ReadValue("[" + inside + "]" + rest, style) == Some((Arr(items), rest))
  {
    var s := "[" + inside + "]" + rest;
    assert s[1..] == inside + "]" + rest;
  }

  lemma ItemsStartWell(items: Items, style: Style)
    requires items.Item? && GoodItems(items)
    ensures PrintItems(items, style) != "" && PrintItems(items, style)[0] != ']'
  {
    StartsWell(items.head, style);
  }

  // One more item, when the next one is read and then the rest.
  lemma ItemNext(s: string, style: Style, head: Json, more: string, tail: Items, rest: string)
    requires GoodStyle(style) && |more| < |s|
    requires ReadValue(s, style) == Some((head, style.comma + more))
    requires ReadItems(more, style) == Some((tail, rest))
    ensures ReadItems(s, style) == Some((Item(head, tail), rest))
  {
    var after := style.comma + more;
    assert after[0] == ',' && after[..|style.comma|] == style.comma && after[|style.comma|..] == more;
  }

  lemma ItemLast(s: string, style: Style, head: Json, rest: string)
    requires ReadValue(s, style) == Some((head, "]" + rest))
    ensures ReadItems(s, style) == Some((Item(head, NoItems), rest))
  {
    assert ("]" + rest)[1..] == rest;
  }

  lemma CommaEnds(style: Style, more: string)
    requires GoodStyle(style)
    ensures Ends(style.comma + more)
  {
    assert (style.comma + more)[0] == ',';
  }

  lemma Join1(a: string, f: string, rest: string)
    ensures a + f + rest == a + (f + rest)
  {
  }

  lemma Join2(a: string, b: string, c: string, f: string, rest: string)
    ensures (a + b + c) + f + rest == a + (b + (c + f + rest))
  {
  }

  lemma Join3(a: string, b: string, c: string, f: string, rest: string)
    ensures (a + b + c) + f + rest == a + (b + (c + (f + rest)))
  {
  }

  lemma Join5(a: string, b: string, c: string, d: string, e: string, f: string, rest: string)
    ensures (a + b + c + d + e) + f + rest == a + (b + (c + (d + (e + f + rest))))
  {
    Join3(a, b, c, d + e + f, rest);
    assert (a + b + c + d + e) + f + rest == (a + b + c) + (d + e + f) + rest;
    assert (d + e + f) + rest == d + (e + f + rest);
  }

  lemma {:induction false} ReadsItems(items: Items, style: Style, rest: string)
    requires GoodStyle(style) && items.Item? && GoodItems(items)
    ensures ReadItems(PrintItems(items, style) + "]" + rest, style) == Some((items, rest))
    decreases items, 0
  {
    var s := PrintItems(items, style) + "]" + rest;
    if items.tail.NoItems? {
      Join1(Print(items.head, style), "]", rest);
      ReadsPrinted(items.head, style, "]" + rest);
      ItemLast(s, style, items.head, rest);
    } else {
      var more := PrintItems(items.tail, style) + "]" + rest;
      Join2(Print(items.head, style), style.comma, PrintItems(items.tail, style), "]", rest);
      CommaEnds(style, more);
      ReadsPrinted(items.head, style, style.comma + more);
      ReadsItems(items.tail, style, rest);
      ItemNext(s, style, items.head, more, items.tail, rest);
    }
  }

  lemma {:induction false} ReadsObject(members: Members, style: Style, rest: string)
    requires GoodStyle(style) && GoodMembers(members)
    ensures ReadValue(Print(Obj(members), style) + rest, style) == Some((Obj(members), rest))
    decreases members, 1
  {
    if members.NoMembers? {
      assert (Print(Obj(members), style) + rest)[2..] == rest;
    } else {
      ReadsMembers(members, style, rest);
      MembersStartWell(members, style);
      Braced(PrintMembers(members, style), style, members, rest);
    }
  }

  lemma Braced(inside: string, style: Style, members: Members, rest: string)
    requires inside != "" && inside[0] == '"'
    requires ReadMembers(inside + "}" + rest, style) == Some((members, rest))
    ensures ReadValue("{" + inside + "}" + rest, style) == Some((Obj(members), rest))
  {
    var s := "{" + inside + "}" + rest;
    assert s[1..] == inside + "}" + rest;
  }

  // The last member, and one more.
  lemma MemberLast(s: string, style: Style, key: string, valued: string, value: Json, rest: string)
    requires s != "" && s[0] == '"' && ReadChars(s[1..]) == Some((key, style.colon + valued))
    requires |style.colon + valued| < |s| && ReadValue(valued, style) == Some((value, "}" + rest))
    ensures ReadMembers(s, style) == Some((Member(key, value, NoMembers), rest))
  {
    var coloned := style.colon + valued;
    assert coloned[..|style.colon|] == style.colon && coloned[|style.colon|..] == valued;
    assert ("}" + rest)[1..] == rest;
  }

  lemma MemberNext(s: string, style: Style, key: string, valued: string, value: Json, more: string, tail: Members,
                   rest: string)
    requires GoodStyle(style) && |more| < |s|
    requires s != "" && s[0] == '"' && ReadChars(s[1..]) == Some((key, style.colon + valued))
    requires |style.colon + valued| < |s| && ReadValue(valued, style) == Some((value, style.comma + more))
    requires ReadMembers(more, style) == Some((tail, rest))
    ensures ReadMembers(s, style) == Some((Member(key, value, tail), rest))
  {
    var coloned, after := style.colon + valued, style.comma + more;
    assert coloned[..|style.colon|] == style.colon && coloned[|style.colon|..] == valued;
    assert after[0] == ',' && after[..|style.comma|] == style.comma && after[|style.comma|..] == more;
  }

  lemma Quoted(inside: string, rest: string)
    ensures var s := "\"" + inside + "\"" + rest;
      s[0] == '"' && s[1..] == inside + "\"" + rest && |rest| < |s|
  {
    var s := "\"" + inside + "\"" + rest;
    assert s == "\"" + (inside + "\"" + rest);
  }

  lemma ReadsKey(key: string, rest: string)
    ensures var s := PrintString(key) + rest;
      s[0] == '"' && ReadChars(s[1..]) == Some((key, rest)) && |rest| < |s|
  {
    ReadsString(key, rest);
    Quoted(Escape(key), rest);
  }

  lemma PrintedLast(members: Members, style: Style, rest: string)
    requires members.Member? && members.rest.NoMembers?
    ensures PrintMembers(members, style) + "}" + rest ==
      PrintString(members.key) + (style.colon + (Print(members.value, style) + ("}" + rest)))
  {
    Join3(PrintString(members.key), style.colon, Print(members.value, style), "}", rest);
  }

  lemma PrintedNext(members: Members, style: Style, rest: string)
    requires members.Member? && members.rest.Member?
    ensures PrintMembers(members, style) + "}" + rest ==
      PrintString(members.key) + (style.colon + (Print(members.value, style) +
        (style.comma + (PrintMembers(members.rest, style) + "}" + rest))))
  {
    Join5(PrintString(members.key), style.colon, Print(members.value, style), style.comma,
          PrintMembers(members.rest, style), "}", rest);
  }

  lemma {:induction false} ReadsMembers(members: Members, style: Style, rest: string)
    requires GoodStyle(style) && members.Member? && GoodMembers(members)
    ensures ReadMembers(PrintMembers(members, style) + "}" + rest, style) == Some((members, rest))
    decreases members, 0
  {
    var key, value, s := members.key, Print(members.value, style), PrintMembers(members, style) + "}" + rest;
    if members.rest.NoMembers? {
      PrintedLast(members, style, rest);
      ReadsPrinted(members.value, style, "}" + rest);
      ReadsKey(key, style.colon + (value + ("}" + rest)));
      MemberLast(s, style, key, value + ("}" + rest), members.value, rest);
    } else {
      var more := PrintMembers(members.rest, style) + "}" + rest;
      PrintedNext(members, style, rest);
      CommaEnds(style, more);
      ReadsPrinted(members.value, style, style.comma + more);
      ReadsMembers(members.rest, style, rest);
      ReadsKey(key, style.colon + (value + (style.comma + more)));
      MemberNext(s, style, key, value + (style.comma + more), members.value, more, members.rest, rest);
    }
  }

  lemma MembersStartWell(members: Members, style: Style)
    requires members.Member?
    ensures PrintMembers(members, style) != "" && PrintMembers(members, style)[0] == '"'
  {
    assert PrintString(members.key)[0] == '"';
  }

  lemma {:induction false} GoodIsPlain(j: Json)
    requires GoodNumbers(j)
    ensures PlainNumbers(j)
    decreases j
  {
    match j
    case Arr(items) => GoodItemsArePlain(items);
    case Obj(members) => GoodMembersArePlain(members);
    case _ =>
  }

  lemma {:induction false} GoodItemsArePlain(items: Items)
    requires GoodItems(items)
    ensures PlainItems(items)
    decreases items
  {
    if items.Item? {
      GoodIsPlain(items.head);
      GoodItemsArePlain(items.tail);
    }
  }

  lemma {:induction false} GoodMembersArePlain(members: Members)
    requires GoodMembers(members)
    ensures PlainMembers(members)
    decreases members
  {
    if members.Member? {
      GoodIsPlain(members.value);
      GoodMembersArePlain(members.rest);
    }
  }

  // The round trip: a value printed into surrounding text is found, and read as the value it was.
  method ExtractAndRead(prefix: string, j: Json, style: Style, suffix: string)
      returns (found: Option<string>)
    requires (j.Obj? || j.Arr?) && GoodStyle(style) && GoodNumbers(j) && OpenOf(KindOf(j)) !in prefix
    ensures found.Some? && ReadValue(found.value, style) == Some((j, ""))
  {
    GoodIsPlain(j);
    found := ExtractPrinted(prefix, j, style, suffix);
    ReadsPrinted(j, style, "");
    assert Print(j, style) + "" == Print(j, style);
  }
}
