/** Acknowledgements of secret commands: the strict parser, and the router that decides which
    queue an acknowledgement belongs to. */
module AckParsing {
  import opened Identifiers
  import opened Text

  const MAX_ACK_BODY := 256
  const MAX_LOCAL_ID := 0x7fff_ffff
  const MAX_RETURN := 1_000_000

  /** Division that truncates toward zero. */
  function TruncDiv(a: int, b: int): int
    requires b > 0
  {
    if a >= 0 then a / b else -((-a) / b)
  }

  /** A signed number within bounds. */
  function BoundedInteger(s: string, minimum: int, maximum: int): Option<int> {
    var n := SignedValue(s);
    if n.Some? && minimum <= n.value <= maximum then n else None
  }

  lemma SignedDigits(value: string, start: nat, index: nat)
    requires value != "" && start == (if value[0] == '-' then 1 else 0) && start <= index < |value|
    requires !IsDigit(value[index])
    ensures SignedValue(value).None?
  {
    assert value[index] in value && (index >= 1 ==> value[index] in value[1..]) by {
      if index >= 1 { assert value[1..][index - 1] == value[index]; }
    }
  }

  /** The digits from `start` up to `index` have been read. */
  predicate HasRead(value: string, start: nat, index: nat, number: int) {
    start <= index <= |value| && AllDigits(value[start..index]) && number == Value(value[start..index])
  }

  lemma ReadNothing(value: string, start: nat)
    requires start <= |value|
    ensures HasRead(value, start, start, 0)
  {
    assert value[start..start] == "";
  }

  lemma ReadOneMore(value: string, start: nat, index: nat, number: int)
    requires HasRead(value, start, index, number) && index < |value| && IsDigit(value[index])
    ensures HasRead(value, start, index + 1, number * 10 + DigitValue(value[index])) && number >= 0
  {
    var next := value[start..index + 1];
    assert next == value[start..index] + [value[index]] && next[..|next| - 1] == value[start..index];
  }

  lemma SignedIsLarge(value: string, start: nat, index: nat, number: int, maximum: int)
    requires value != "" && start == (if value[0] == '-' then 1 else 0)
    requires HasRead(value, start, index, number) && number > maximum + 1
    ensures SignedValue(value).Some? ==>
      if start == 1 then SignedValue(value).value < -(maximum + 1) else SignedValue(value).value > maximum + 1
  {
    if SignedValue(value).Some? {
      var digits := value[start..];
      assert start == 0 ==> digits == value;
      assert digits[..index - start] == value[start..index];
      ValueOfLonger(digits, index - start);
    }
  }

  /** What the guard on the accumulator rules out. */
  lemma GuardBounds(number: nat, digit: nat, maximum: int)
    requires digit <= 9
    ensures number > TruncDiv(maximum + 1 - digit, 10) ==> number * 10 + digit > maximum + 1
    ensures number <= TruncDiv(maximum + 1 - digit, 10) && maximum >= 8 ==> number * 10 + digit <= maximum + 1
  {}

  lemma ReadAll(value: string, start: nat, number: int)
    requires value != "" && start == (if value[0] == '-' then 1 else 0) && start < |value|
    requires HasRead(value, start, |value|, number)
    ensures SignedValue(value) == Some(if start == 1 then -number else number)
  {
    assert value[start..|value|] == value[start..] && (start == 0 ==> value[start..] == value);
  }

  /** strictACKInteger. What it accepts is always right; it accepts everything in range when the lower
      bound is no further from zero than maximum + 1, and then the accumulator stays below maximum + 2. */
  method StrictACKInteger(value: string, minimum: int, maximum: int) returns (number: int, ok: bool)
    ensures ok ==> BoundedInteger(value, minimum, maximum) == Some(number)
    ensures minimum >= -(maximum + 1) ==> (ok <==> BoundedInteger(value, minimum, maximum).Some?)
  {
    if |value| == 0 {
      return 0, false;
    }
    var negative, index := false, 0;
    if value[0] == '-' {
      negative, index := true, 1;
      if index == |value| {
        return 0, false;
      }
    }
    ghost var start: nat := index;
    number := 0;
    ReadNothing(value, start);
    hide HasRead, SignedValue, TruncDiv;
    while index < |value|
      invariant start <= index <= |value| && HasRead(value, start, index, number)
      invariant maximum >= 8 ==> 0 <= number <= maximum + 1
    {
      if !('0' <= value[index] <= '9') {
        SignedDigits(value, start, index);
        return 0, false;
      }
      var digit := value[index] as int - '0' as int;
      ReadOneMore(value, start, index, number);
      GuardBounds(number, digit, maximum);
      if number > TruncDiv(maximum + 1 - digit, 10) {
        SignedIsLarge(value, start, index + 1, number * 10 + digit, maximum);
        return 0, false;
      }
      number := number * 10 + digit;
      index := index + 1;
    }
    ReadAll(value, start, number);
    if negative {
      number := -number;
    }
    ok := minimum <= number <= maximum;
  }

  // ---------- the strict form ----------

  predicate IDField(field: string, id: int) {
    var cut := Cut(field, '=');
    cut.Some? && cut.value.0 == "ID" && BoundedInteger(cut.value.1, 1, MAX_LOCAL_ID) == Some(id)
  }

  predicate ReturnField(field: string, code: int) {
    var cut := Cut(field, '=');
    cut.Some? && cut.value.0 == "Return" && BoundedInteger(cut.value.1, -MAX_RETURN, MAX_RETURN) == Some(code)
  }

  function Named(key: string, value: string): string { key + "=" + value }

  predicate Written(body: string, idText: string, codeText: string) {
    || body == Named("ID", idText) + "&" + Named("Return", codeText)
    || body == Named("Return", codeText) + "&" + Named("ID", idText)
  }

  /** The body names exactly one id and one return code, in either order and nothing else. */
  ghost predicate Acknowledges(body: string, id: int, code: int) {
    && |body| <= MAX_ACK_BODY
    && exists idText, codeText :: Written(body, idText, codeText)
         && BoundedInteger(idText, 1, MAX_LOCAL_ID) == Some(id)
         && BoundedInteger(codeText, -MAX_RETURN, MAX_RETURN) == Some(code)
  }

  lemma NumbersHaveNo(s: string, c: char)
    requires SignedValue(s).Some? && !IsDigit(c) && c != '-'
    ensures c !in s
  {
    if s[0] == '-' { assert s == ['-'] + s[1..]; }
  }

  predicate AreFields(fields: seq<string>, id: int, code: int) {
    |fields| == 2
      && ((IDField(fields[0], id) && ReturnField(fields[1], code))
         || (ReturnField(fields[0], code) && IDField(fields[1], id)))
  }

  lemma TwoFields(a: string, b: string)
    requires '&' !in a && '&' !in b
    ensures Split(a + "&" + b, '&') == [a, b]
  {
    SplitAt(a, '&', b);
    SplitNone(b, '&');
  }

  lemma NamedCuts(key: string, value: string)
    requires '=' !in key
    ensures Cut(Named(key, value), '=') == Some((key, value))
  {
    CutIs(key, '=', value);
  }

  lemma NamedHasNo(key: string, value: string, c: char)
    requires c !in key && c !in value && c != '='
    ensures c !in Named(key, value)
  {}

  lemma WrittenFields(body: string, idText: string, codeText: string, id: int, code: int)
    requires Written(body, idText, codeText)
    requires BoundedInteger(idText, 1, MAX_LOCAL_ID) == Some(id)
      && BoundedInteger(codeText, -MAX_RETURN, MAX_RETURN) == Some(code)
    ensures AreFields(Split(body, '&'), id, code)
  {
    NumbersHaveNo(idText, '&');
    NumbersHaveNo(codeText, '&');
    hide SignedValue, BoundedInteger, Split, Cut;
    var f, g := Named("ID", idText), Named("Return", codeText);
    NamedCuts("ID", idText);
    NamedCuts("Return", codeText);
    NamedHasNo("ID", idText, '&');
    NamedHasNo("Return", codeText, '&');
    hide Named;
    if body == f + "&" + g { TwoFields(f, g); } else { TwoFields(g, f); }
  }

  lemma CutNames(field: string)
    requires Cut(field, '=').Some?
    ensures field == Named(Cut(field, '=').value.0, Cut(field, '=').value.1)
  {}

  lemma WrittenOnce(body: string, f: string, g: string, idText: string, codeText: string)
    requires f == Named("ID", idText) && g == Named("Return", codeText)
    requires body == f + "&" + g || body == g + "&" + f
    ensures Written(body, idText, codeText)
  {
    hide Named;
  }

  lemma FieldsWritten(body: string, id: int, code: int)
    requires AreFields(Split(body, '&'), id, code) && |body| <= MAX_ACK_BODY
    ensures Acknowledges(body, id, code)
  {
    var f, g := Split(body, '&')[0], Split(body, '&')[1];
    TwoJoin(body, '&');
    hide Split, BoundedInteger;
    if IDField(f, id) && ReturnField(g, code) {
      OneWritten(body, f, g, id, code);
    } else {
      OneWritten(body, g, f, id, code);
    }
  }

  lemma OneWritten(body: string, f: string, g: string, id: int, code: int)
    requires IDField(f, id) && ReturnField(g, code) && |body| <= MAX_ACK_BODY
    requires body == f + "&" + g || body == g + "&" + f
    ensures Acknowledges(body, id, code)
  {
    CutNames(f);
    CutNames(g);
    var idText, codeText := Cut(f, '=').value.1, Cut(g, '=').value.1;
    hide Cut, BoundedInteger, Named;
    WrittenOnce(body, f, g, idText, codeText);
    hide Written;
  }

  lemma TwoJoin(body: string, c: char)
    requires |Split(body, c)| == 2
    ensures body == Split(body, c)[0] + [c] + Split(body, c)[1]
  {
    var fields := Split(body, c);
    SplitJoins(body, c);
    hide Split;
    assert Join(fields[1..], c) == fields[1];
  }

  /** An acknowledgement has one meaning. */
  lemma AcknowledgesFields(body: string, id: int, code: int)
    requires |body| <= MAX_ACK_BODY
    ensures Acknowledges(body, id, code) <==> AreFields(Split(body, '&'), id, code)
  {
    if Acknowledges(body, id, code) {
      var idText, codeText :| Written(body, idText, codeText)
        && BoundedInteger(idText, 1, MAX_LOCAL_ID) == Some(id)
        && BoundedInteger(codeText, -MAX_RETURN, MAX_RETURN) == Some(code);
      WrittenFields(body, idText, codeText, id, code);
    } else if AreFields(Split(body, '&'), id, code) {
      FieldsWritten(body, id, code);
    }
  }

  // ---------- the router ----------

  function HexNibble(c: char): Option<nat> {
    if IsDigit(c) then Some(c as int - '0' as int)
    else if 'a' <= c <= 'f' then Some(c as int - 'a' as int + 10)
    else if 'A' <= c <= 'F' then Some(c as int - 'A' as int + 10)
    else None
  }

  /** Percent-decoding, with `+` for a space. */
  function Decode(s: string): Option<string> {
    if s == "" then Some("")
    else if s[0] == '+' then Prepend(' ', Decode(s[1..]))
    else if s[0] == '%' then
      if |s| < 3 || HexNibble(s[1]).None? || HexNibble(s[2]).None? then None
      else Prepend(Byte(HexNibble(s[1]).value, HexNibble(s[2]).value), Decode(s[3..]))
    else Prepend(s[0], Decode(s[1..]))
  }

  function Byte(high: nat, low: nat): char
    requires high < 16 && low < 16
  {
    (16 * high + low) as char
  }

  function Prepend(c: char, s: Option<string>): Option<string> {
    if s.Some? then Some([c] + s.value) else None
  }

  /** What is decoded so far and what is left make up the result. */
  ghost predicate DecodedTo(value: string, decoded: string, rest: string) {
    Decode(value) == if Decode(rest).Some? then Some(decoded + Decode(rest).value) else None
  }

  lemma DecodedMore(value: string, decoded: string, rest: string, c: char, left: string)
    requires DecodedTo(value, decoded, rest) && Decode(rest) == Prepend(c, Decode(left))
    ensures DecodedTo(value, decoded + [c], left)
  {
    hide Decode;
    if Decode(left).Some? {
      assert decoded + ([c] + Decode(left).value) == decoded + [c] + Decode(left).value;
    }
  }

  /** decodeACKRoutingComponent */
  method DecodeRoutingComponent(value: string) returns (decoded: string, valid: bool)
    ensures valid <==> Decode(value).Some?
    ensures valid ==> Decode(value) == Some(decoded)
  {
    decoded := "";
    var index := 0;
    assert value[0..] == value && DecodedTo(value, "", value) by { DecodedStart(value); }
    hide DecodedTo, HexNibble;
    while index < |value|
      invariant index <= |value|
      invariant DecodedTo(value, decoded, value[index..])
    {
      ghost var rest := value[index..];
      ghost var skip := 1;
      var c := value[index];
      if c == '+' {
        c := ' ';
      } else if c == '%' {
        if index + 2 >= |value| {
          Undecodable(value, decoded, rest);
          return decoded, false;
        }
        var high, low := HexNibble(value[index + 1]), HexNibble(value[index + 2]);
        if high.None? || low.None? {
          Undecodable(value, decoded, rest);
          return decoded, false;
        }
        c := Byte(high.value, low.value);
        index := index + 2;
        skip := 3;
      }
      index := index + 1;
      assert value[index..] == rest[skip..];
      DecodedMore(value, decoded, rest, c, value[index..]);
      decoded := decoded + [c];
    }
    DecodedEnd(value, decoded);
    assert value[index..] == "";
    valid := true;
  }

  lemma DecodedStart(value: string)
    ensures DecodedTo(value, "", value)
  {
    assert Decode(value).Some? ==> "" + Decode(value).value == Decode(value).value;
    hide Decode;
  }

  lemma DecodedEnd(value: string, decoded: string)
    ensures DecodedTo(value, decoded, "") ==> Decode(value) == Some(decoded)
  {
    assert decoded + "" == decoded;
  }

  lemma Undecodable(value: string, decoded: string, rest: string)
    requires DecodedTo(value, decoded, rest) && Decode(rest).None?
    ensures Decode(value).None?
  {
    hide Decode;
  }

  /** The id that one field contributes to routing. */
  function RoutedID(field: string): Option<int> {
    match Cut(field, '=')
    case None => None
    case Some((key, value)) =>
      if Decode(key) != Some("ID") || Decode(value).None? then None
      else BoundedInteger(Decode(value).value, 1, MAX_LOCAL_ID)
  }

  function Listed(id: Option<int>): seq<int> { if id.Some? then [id.value] else [] }

  function RoutedIDs(fields: seq<string>): seq<int> {
    if fields == [] then [] else RoutedIDs(fields[..|fields| - 1]) + Listed(RoutedID(fields[|fields| - 1]))
  }

  /** inspectDeviceCommandRoutingIDs */
  method InspectRoutingIDs(body: string) returns (ids: seq<int>)
    ensures ids == RoutedIDs(Split(body, '&'))
  {
    ids := [];
    var fields := Split(body, '&');
    for k := 0 to |fields|
      invariant ids == RoutedIDs(fields[..k])
    {
      assert fields[..k + 1][..k] == fields[..k];
      var cut := Cut(fields[k], '=');
      if cut.None? {
        continue;
      }
      var (key, value) := cut.value;
      var routingKey, valid := DecodeRoutingComponent(key);
      if !valid || routingKey != "ID" {
        continue;
      }
      var routingValue;
      routingValue, valid := DecodeRoutingComponent(value);
      if !valid {
        continue;
      }
      var id;
      id, valid := StrictACKInteger(routingValue, 1, MAX_LOCAL_ID);
      if valid {
        ids := ids + [id];
      }
    }
    assert fields[..|fields|] == fields;
  }

  lemma {:induction false} PlainDecodes(s: string)
    requires '+' !in s && '%' !in s
    ensures Decode(s) == Some(s)
  {
    if s != "" {
      PlainDecodes(s[1..]);
      assert s == [s[0]] + s[1..];
    }
  }

  lemma ReturnIsNotRouted(field: string, code: int)
    requires ReturnField(field, code)
    ensures RoutedID(field).None?
  {
    PlainDecodes("Return");
    hide Decode, BoundedInteger, Cut;
    assert |"Return"| != |"ID"| && Decode(Cut(field, '=').value.0) == Some("Return");
  }

  lemma IDIsRouted(field: string, id: int)
    requires IDField(field, id)
    ensures RoutedID(field) == Some(id)
  {
    var value := Cut(field, '=').value.1;
    NumbersHaveNo(value, '+');
    NumbersHaveNo(value, '%');
    PlainDecodes("ID");
    PlainDecodes(value);
  }

  /** What the strict parser accepts, the router reads as exactly that id. */
  lemma AcceptedIsRouted(body: string, id: int, code: int)
    requires Acknowledges(body, id, code)
    ensures RoutedIDs(Split(body, '&')) == [id]
  {
    AcknowledgesFields(body, id, code);
    var fields := Split(body, '&');
    assert fields[..2] == fields && fields[..1] == [fields[0]] && fields[..1][..0] == [];
    assert RoutedIDs([fields[0]]) == Listed(RoutedID(fields[0])) by { assert [fields[0]][..0] == []; }
    if IDField(fields[0], id) && ReturnField(fields[1], code) {
      IDIsRouted(fields[0], id);
      ReturnIsNotRouted(fields[1], code);
    } else {
      IDIsRouted(fields[1], id);
      ReturnIsNotRouted(fields[0], code);
    }
  }

  datatype Route = Unknown | Generic | Secret

  predicate AnyPending(deviceSN: string, ids: seq<int>, pending: set<(string, int)>) {
    exists k | 0 <= k < |ids| :: (deviceSN, ids[k]) in pending
  }

  /** routeDeviceCommandACK: a secret command has precedence. */
  method RouteACK(deviceSN: string, body: string, secret: set<(string, int)>, generic: set<(string, int)>)
    returns (route: Route)
    ensures var ids := RoutedIDs(Split(body, '&'));
      route ==
        if AnyPending(deviceSN, ids, secret) then Secret
        else if AnyPending(deviceSN, ids, generic) then Generic
        else Unknown
  {
    var ids := InspectRoutingIDs(body);
    for k := 0 to |ids|
      invariant forall j | 0 <= j < k :: (deviceSN, ids[j]) !in secret
    {
      if (deviceSN, ids[k]) in secret {
        return Secret;
      }
    }
    for k := 0 to |ids|
      invariant forall j | 0 <= j < k :: (deviceSN, ids[j]) !in generic
    {
      if (deviceSN, ids[k]) in generic {
        return Generic;
      }
    }
    route := Unknown;
  }

  // ---------- the strict parser ----------

  /** The id that a field names as it stands, without decoding. */
  function NamedID(field: string): Option<int> {
    match Cut(field, '=')
    case None => None
    case Some((key, value)) => if key == "ID" then BoundedInteger(value, 1, MAX_LOCAL_ID) else None
  }

  /** The first id that the fields name, or 0. */
  function FirstNamed(fields: seq<string>): int {
    if fields == [] then 0
    else if NamedID(fields[0]).Some? then NamedID(fields[0]).value
    else FirstNamed(fields[1..])
  }

  /** A field for an id or a return code whose number is not one. */
  predicate BadNumber(field: string) {
    match Cut(field, '=')
    case None => false
    case Some((key, value)) =>
      && value != ""
      && (|| (key == "ID" && BoundedInteger(value, 1, MAX_LOCAL_ID).None?)
          || (key == "Return" && BoundedInteger(value, -MAX_RETURN, MAX_RETURN).None?))
  }

  /** The strict parser gives up on the whole body at a bad number in front. */
  predicate GivesUp(fields: seq<string>) { |fields| == 2 && BadNumber(fields[0]) }

  /** inspectSecretDeviceCommandID: the first id that parses. */
  method InspectID(body: string) returns (id: int)
    ensures id == FirstNamed(Split(body, '&'))
  {
    hide Split, Cut, BoundedInteger;
    var fields := Split(body, '&');
    for k := 0 to |fields|
      invariant FirstNamed(fields) == FirstNamed(fields[k..])
    {
      assert fields[k..][1..] == fields[k + 1..];
      var cut := Cut(fields[k], '=');
      if cut.None? || cut.value.0 != "ID" {
        continue;
      }
      var parsed, ok := StrictACKInteger(cut.value.1, 1, MAX_LOCAL_ID);
      if ok {
        return parsed;
      }
    }
    id := 0;
  }

  lemma NotAcknowledged(body: string)
    requires |body| <= MAX_ACK_BODY ==> forall id, code :: !AreFields(Split(body, '&'), id, code)
    ensures forall id, code :: !Acknowledges(body, id, code)
  {
    forall id, code ensures !Acknowledges(body, id, code) {
      if |body| <= MAX_ACK_BODY { AcknowledgesFields(body, id, code); }
    }
  }

  /** parseSecretDeviceCommandACK accepts exactly the bodies that acknowledge, with their meaning. Any other
      body gives the first id it names, unless the parser gave up on a bad number in front. */
  method ParseACK(body: string) returns (localID: int, returnCode: int, valid: bool)
    ensures valid ==> Acknowledges(body, localID, returnCode)
    ensures !valid ==> forall id, code :: !Acknowledges(body, id, code)
    ensures !valid ==>
      localID == if 0 < |body| <= MAX_ACK_BODY && GivesUp(Split(body, '&')) then 0 else FirstNamed(Split(body, '&'))
  {
    if |body| == 0 || |body| > MAX_ACK_BODY {
      assert |body| == 0 ==> |Split(body, '&')| == 1;
      NotAcknowledged(body);
      localID := InspectID(body);
      return localID, 0, false;
    }
    hide Split, Acknowledges;
    var inspect;
    localID, returnCode, valid, inspect := ParseFields(Split(body, '&'));
    if !valid {
      NotAcknowledged(body);
      if inspect {
        localID := InspectID(body);
      }
      return localID, 0, false;
    }
    FieldsWritten(body, localID, returnCode);
  }

  /** A field without a key or a value is no number, good or bad. */
  lemma MalformedField(field: string)
    requires var cut := Cut(field, '='); cut.None? || cut.value.0 == "" || cut.value.1 == ""
    ensures NamedID(field).None? && !BadNumber(field)
    ensures forall n :: !IDField(field, n) && !ReturnField(field, n)
  {
    hide Cut;
  }

  /** What a field with a key and a value is, by its key. */
  lemma FieldReads(field: string, key: string, value: string)
    requires Cut(field, '=') == Some((key, value)) && value != ""
    ensures key == "ID" ==>
      NamedID(field) == BoundedInteger(value, 1, MAX_LOCAL_ID) && (BadNumber(field) <==> NamedID(field).None?)
    ensures key == "Return" ==> (BadNumber(field) <==> BoundedInteger(value, -MAX_RETURN, MAX_RETURN).None?)
    ensures key == "Return" ==>
      forall c :: ReturnField(field, c) <==> BoundedInteger(value, -MAX_RETURN, MAX_RETURN) == Some(c)
    ensures key != "ID" ==> NamedID(field).None?
    ensures key != "Return" ==> forall c :: !ReturnField(field, c)
    ensures key != "ID" && key != "Return" ==> !BadNumber(field)
    ensures forall n :: IDField(field, n) <==> NamedID(field) == Some(n)
  {
    assert |"ID"| != |"Return"|;
    hide Cut, BoundedInteger;
  }

  lemma FirstOfTwo(fields: seq<string>)
    requires |fields| == 2
    ensures FirstNamed(fields) ==
      if NamedID(fields[0]).Some? then NamedID(fields[0]).value
      else if NamedID(fields[1]).Some? then NamedID(fields[1]).value
      else 0
  {
    hide NamedID;
    assert fields[1..] == [fields[1]] && [fields[1]][1..] == [];
    assert FirstNamed([fields[1]]) == if NamedID(fields[1]).Some? then NamedID(fields[1]).value else 0;
  }

  /** What the parser knows after k of two fields. */
  ghost predicate SoFar(fields: seq<string>, k: nat, seenID: bool, seenReturn: bool, localID: int, returnCode: int)
    requires |fields| == 2 && k <= 2
  {
    && k == (if seenID then 1 else 0) + (if seenReturn then 1 else 0)
    && (!seenID ==> localID == 0)
    && (k == 1 && seenID ==> IDField(fields[0], localID))
    && (k == 1 && seenReturn ==> ReturnField(fields[0], returnCode))
    && (k == 2 ==> AreFields(fields, localID, returnCode))
  }

  /** A field is an id, a return code, or neither, and in the first two cases no bad number. */
  lemma OneKind(field: string)
    ensures forall n, c :: !(IDField(field, n) && ReturnField(field, c))
    ensures forall n, m | IDField(field, n) && IDField(field, m) :: n == m
    ensures forall n | IDField(field, n) :: NamedID(field) == Some(n) && !BadNumber(field)
    ensures forall c | ReturnField(field, c) :: NamedID(field).None? && !BadNumber(field)
  {
    assert |"ID"| != |"Return"|;
    hide Cut, BoundedInteger;
  }

  lemma NoneLeft(fields: seq<string>, k: nat, seenID: bool, seenReturn: bool, localID: int, returnCode: int)
    requires |fields| == 2 && k < 2 && SoFar(fields, k, seenID, seenReturn, localID, returnCode)
    requires seenID || forall n :: !IDField(fields[k], n)
    requires seenReturn || forall c :: !ReturnField(fields[k], c)
    ensures forall id, code :: !AreFields(fields, id, code)
    ensures k == 1 ==> !BadNumber(fields[0])
  {
    OneKind(fields[0]);
    hide IDField, ReturnField, BadNumber;
  }

  lemma StoppedAt(fields: seq<string>, k: nat, seenID: bool, seenReturn: bool, localID: int, returnCode: int)
    requires |fields| == 2 && k < 2 && SoFar(fields, k, seenID, seenReturn, localID, returnCode)
    requires BadNumber(fields[k]) && NamedID(fields[k]).None?
    ensures localID == if GivesUp(fields) then 0 else FirstNamed(fields)
  {
    OneKind(fields[0]);
    FirstOfTwo(fields);
    hide IDField, ReturnField, BadNumber, NamedID, FirstNamed;
  }

  /** The loop over the fields; some failures leave it to an inspection of the body to find the id. */
  method ParseFields(fields: seq<string>) returns (localID: int, returnCode: int, valid: bool, inspect: bool)
    ensures valid ==> AreFields(fields, localID, returnCode)
    ensures !valid ==> forall id, code :: !AreFields(fields, id, code)
    ensures !valid ==>
      if inspect then !GivesUp(fields) else localID == if GivesUp(fields) then 0 else FirstNamed(fields)
  {
    if |fields| != 2 {
      return 0, 0, false, true;
    }
    var seenID, seenReturn := false, false;
    localID, returnCode := 0, 0;
    hide Cut, BoundedInteger, IDField, ReturnField, NamedID, BadNumber, FirstNamed;
    for k := 0 to |fields|
      invariant SoFar(fields, k, seenID, seenReturn, localID, returnCode)
    {
      var cut := Cut(fields[k], '=');
      if cut.None? || |cut.value.0| == 0 || |cut.value.1| == 0 {
        MalformedField(fields[k]);
        NoneLeft(fields, k, seenID, seenReturn, localID, returnCode);
        return 0, 0, false, true;
      }
      var (key, value) := cut.value;
      FieldReads(fields[k], key, value);
      if key == "ID" && !seenID {
        var parsed, ok := StrictACKInteger(value, 1, MAX_LOCAL_ID);
        if !ok {
          NoneLeft(fields, k, seenID, seenReturn, localID, returnCode);
          StoppedAt(fields, k, seenID, seenReturn, localID, returnCode);
          return 0, 0, false, false;
        }
        localID, seenID := parsed, true;
      } else if key == "Return" && !seenReturn {
        var parsed, ok := StrictACKInteger(value, -MAX_RETURN, MAX_RETURN);
        if !ok {
          NoneLeft(fields, k, seenID, seenReturn, localID, returnCode);
          StoppedAt(fields, k, seenID, seenReturn, localID, returnCode);
          return localID, 0, false, false;
        }
        returnCode, seenReturn := parsed, true;
      } else {
        NoneLeft(fields, k, seenID, seenReturn, localID, returnCode);
        return 0, 0, false, true;
      }
    }
    valid, inspect := seenID && seenReturn, false;
  }

  // ---------- printing ----------

  function PrintACK(id: int, code: int, idFirst: bool): string {
    if idFirst then Named("ID", Itoa(id)) + "&" + Named("Return", Itoa(code))
    else Named("Return", Itoa(code)) + "&" + Named("ID", Itoa(id))
  }

  /** Whatever id and return code a device prints, in either order, is what the parser and the router read. */
  lemma PrintedIsAcknowledged(id: int, code: int, idFirst: bool)
    requires 1 <= id <= MAX_LOCAL_ID && -MAX_RETURN <= code <= MAX_RETURN
    ensures forall i, c :: Acknowledges(PrintACK(id, code, idFirst), i, c) <==> i == id && c == code
    ensures RoutedIDs(Split(PrintACK(id, code, idFirst), '&')) == [id]
  {
    var body := PrintACK(id, code, idFirst);
    SignedReads(id);
    SignedReads(code);
    DecimalLength(id, 10) by { TenDigits(); }
    DecimalLength(if code < 0 then -code else code, 10) by { TenDigits(); }
    assert |body| <= 100;
    assert Written(body, Itoa(id), Itoa(code));
    assert Acknowledges(body, id, code);
    AcceptedIsRouted(body, id, code);
    forall i, c ensures Acknowledges(body, i, c) <==> i == id && c == code {
      AcknowledgesFields(body, id, code);
      AcknowledgesFields(body, i, c);
    }
  }

  lemma TenDigits()
    ensures Power10(10) == 10_000_000_000
  {
    assert Power10(3) == 1_000 && Power10(6) == 1_000_000 && Power10(9) == 1_000_000_000;
  }

  /** An acknowledgement of a pending secret command is never taken for anything else. */
  lemma SecretsAreRoutedAsSecrets(deviceSN: string, body: string, id: int, code: int, secret: set<(string, int)>)
    requires Acknowledges(body, id, code)
    ensures AnyPending(deviceSN, RoutedIDs(Split(body, '&')), secret) <==> (deviceSN, id) in secret
  {
    AcceptedIsRouted(body, id, code);
    assert [id][0] == id;
  }

  // ---------- percent-encoding ----------

  function HexDigit(n: nat, upper: bool): char
    requires n < 16
  {
    if n < 10 then ('0' as int + n) as char else (n - 10 + (if upper then 'A' as int else 'a' as int)) as char
  }

  predicate IsBytes(s: string) { forall k | 0 <= k < |s| :: s[k] as int < 256 }

  /** Every byte as a percent-encoded octet, section 2.1 of RFC 3986. */
  function PercentEncode(s: string, upper: bool): string
    requires IsBytes(s)
  {
    if s == "" then ""
    else ['%', HexDigit(s[0] as int / 16, upper), HexDigit(s[0] as int % 16, upper)] + PercentEncode(s[1..], upper)
  }

  lemma NibbleReads(n: nat, upper: bool)
    requires n < 16
    ensures HexNibble(HexDigit(n, upper)) == Some(n)
  {}

  lemma {:induction false} EncodedDecodes(s: string, upper: bool)
    requires IsBytes(s)
    ensures Decode(PercentEncode(s, upper)) == Some(s)
  {
    if s != "" {
      var high, low := s[0] as int / 16, s[0] as int % 16;
      var code := PercentEncode(s, upper);
      NibbleReads(high, upper);
      NibbleReads(low, upper);
      assert Byte(high, low) == s[0];
      EncodedDecodes(s[1..], upper);
      assert code[3..] == PercentEncode(s[1..], upper) && code[0] == '%';
      assert s == [s[0]] + s[1..];
    }
  }
}
