/** Text commands: the scanning loops, the parser, and the grammar it accepts. */
module CommandParser {
  import opened Basics

  const INT_MAX := 0x7FFF_FFFF

  // Upper-case command words, in ASCII.
  const PING: bytes := [80, 73, 78, 71]
  const STATS: bytes := [83, 84, 65, 84, 83]
  const QUIT: bytes := [81, 85, 73, 84]
  const HELP: bytes := [72, 69, 76, 80]
  const GET: bytes := [71, 69, 84]
  const DEL: bytes := [68, 69, 76]
  const TTL: bytes := [84, 84, 76]
  const SET: bytes := [83, 69, 84]
  const EXPIRE: bytes := [69, 88, 80, 73, 82, 69]

  datatype CommandType = Ping | Set | Get | Del | Expire | Ttl | Stats | Quit | Help | Unknown

  datatype Command = Command(kind: CommandType, key: bytes, value: bytes, seconds: int, raw: bytes)

  // ------------------------------------------------------------ characters and runs

  /** `isspace` in the C locale: blank, tab, line feed, vertical tab, form feed, carriage return. */
  predicate IsSpace(b: byte) {
    b == 32 || 9 <= b <= 13
  }

  predicate IsDigit(b: byte) {
    48 <= b <= 57
  }

  function UpperByte(b: byte): byte {
    if 97 <= b <= 122 then b - 32 else b
  }

  function Upper(text: bytes): (u: bytes) {
    seq(|text|, i requires 0 <= i < |text| => UpperByte(text[i]))
  }

  predicate AllSpace(text: bytes) {
    forall i :: 0 <= i < |text| ==> IsSpace(text[i])
  }

  predicate IsWord(text: bytes) {
    text != [] && forall i :: 0 <= i < |text| ==> !IsSpace(text[i])
  }

  /** Empty, or with no space at either end. */
  predicate IsTrimmed(text: bytes) {
    text != [] ==> !IsSpace(text[0]) && !IsSpace(text[|text| - 1])
  }

  /** Empty, or starting with a space: where a word may end. */
  predicate EndsWord(tail: bytes) {
    tail != [] ==> IsSpace(tail[0])
  }

  function LeadingSpaces(text: bytes): (n: nat)
    ensures n <= |text|
  {
    if text != [] && IsSpace(text[0]) then 1 + LeadingSpaces(text[1..]) else 0
  }

  function WordLength(text: bytes): (n: nat)
    ensures n <= |text|
  {
    if text != [] && !IsSpace(text[0]) then 1 + WordLength(text[1..]) else 0
  }

  function DropSpaces(text: bytes): bytes {
    text[LeadingSpaces(text)..]
  }

  function TrimEnd(text: bytes): bytes {
    if text != [] && IsSpace(text[|text| - 1]) then TrimEnd(text[..|text| - 1]) else text
  }

  function Trim(text: bytes): bytes {
    TrimEnd(DropSpaces(text))
  }

  /** What is left behind the next word, if there is one. */
  function AfterWord(text: bytes): bytes {
    var t := DropSpaces(text);
    t[WordLength(t)..]
  }

  function Words(text: bytes): seq<bytes>
    decreases |text|
  {
    var t := DropSpaces(text);
    if t == [] then [] else [t[..WordLength(t)]] + Words(AfterWord(text))
  }

  function AfterWords(text: bytes, n: nat): bytes
    decreases n
  {
    if n == 0 then text else AfterWords(AfterWord(text), n - 1)
  }

  function RestAfterWords(text: bytes, n: nat): bytes {
    Trim(AfterWords(text, n))
  }

  predicate AllDigits(text: bytes) {
    forall i :: 0 <= i < |text| ==> IsDigit(text[i])
  }

  function DecimalValue(digits: bytes): nat
    requires AllDigits(digits)
  {
    if digits == [] then 0
    else 10 * DecimalValue(digits[..|digits| - 1]) + (digits[|digits| - 1] as int - 48)
  }

  /** A digit string whose value is between 1 and 2^31-1; leading zeros are allowed. */
  function PositiveInt(text: bytes): (value: Option<int>)
    ensures value.Some? ==> 1 <= value.value <= INT_MAX
  {
    if text != [] && AllDigits(text) && 1 <= DecimalValue(text) <= INT_MAX
    then Some(DecimalValue(text))
    else None
  }

  // ------------------------------------------------------------ the parser

  function MakeUnknown(raw: bytes): Command {
    Command(Unknown, [], [], 0, raw)
  }

  /** The commands without a free-text or numeric argument, with how many words each takes. */
  function BasicKind(op: bytes): (CommandType, nat) {
    if op == PING then (Ping, 1)
    else if op == STATS then (Stats, 1)
    else if op == QUIT then (Quit, 1)
    else if op == HELP then (Help, 1)
    else if op == GET then (Get, 2)
    else if op == DEL then (Del, 2)
    else if op == TTL then (Ttl, 2)
    else (Unknown, 0)
  }

  /** What the parser makes of a line whose words are `parts` and whose text after two words is `rest`. */
  function Interpret(line: bytes, parts: seq<bytes>, rest: bytes): Command {
    if parts == [] then MakeUnknown(line)
    else
      var op := Upper(parts[0]);
      var (kind, count) := BasicKind(op);
      if kind != Unknown then
        if |parts| != count then MakeUnknown(line)
        else Command(kind, if count == 2 then parts[1] else [], [], 0, line)
      else if op == SET then
        if |parts| < 3 || rest == [] then MakeUnknown(line)
        else Command(Set, parts[1], rest, 0, line)
      else if op == EXPIRE then
        if |parts| != 3 || PositiveInt(parts[2]).None? then MakeUnknown(line)
        else Command(Expire, parts[1], [], PositiveInt(parts[2]).value, line)
      else MakeUnknown(line)
  }

  function Parse(line: bytes): Command {
    var text := Trim(line);
    Interpret(line, Words(text), RestAfterWords(text, 2))
  }

  // ------------------------------------------------------------ scanning lemmas

  lemma {:induction false} LeadingSpacesEnd(text: bytes)
    ensures AllSpace(text[..LeadingSpaces(text)])
    ensures LeadingSpaces(text) < |text| ==> !IsSpace(text[LeadingSpaces(text)])
  {
    if text != [] && IsSpace(text[0]) {
      LeadingSpacesEnd(text[1..]);
      assert text[..LeadingSpaces(text)] == [text[0]] + text[1..][..LeadingSpaces(text[1..])];
    }
  }

  lemma {:induction false} WordEnds(text: bytes)
    ensures forall i :: 0 <= i < WordLength(text) ==> !IsSpace(text[i])
    ensures WordLength(text) > 0 ==> IsWord(text[..WordLength(text)])
    ensures EndsWord(text[WordLength(text)..])
  {
    if text != [] && !IsSpace(text[0]) {
      WordEnds(text[1..]);
      assert text[WordLength(text)..] == text[1..][WordLength(text[1..])..];
      assert forall i :: 0 < i < WordLength(text) ==> text[i] == text[1..][i - 1];
    }
  }

  lemma {:induction false} LeadingSpacesOf(pad: bytes, text: bytes)
    requires AllSpace(pad)
    ensures LeadingSpaces(pad + text) == |pad| + LeadingSpaces(text)
    ensures DropSpaces(pad + text) == DropSpaces(text)
  {
    if pad == [] {
      assert pad + text == text;
    } else {
      LeadingSpacesOf(pad[1..], text);
      assert (pad + text)[1..] == pad[1..] + text;
    }
  }

  lemma NoLeadingSpaces(text: bytes)
    requires text == [] || !IsSpace(text[0])
    ensures DropSpaces(text) == text
  {
  }

  lemma SpaceEndsWord(pad: bytes, text: bytes)
    requires AllSpace(pad) && pad != []
    ensures EndsWord(pad + text)
  {
  }

  lemma {:induction false} WordLengthOf(word: bytes, tail: bytes)
    requires (forall i :: 0 <= i < |word| ==> !IsSpace(word[i])) && EndsWord(tail)
    ensures WordLength(word + tail) == |word|
  {
    if word == [] {
      assert word + tail == tail;
    } else {
      WordLengthOf(word[1..], tail);
      assert (word + tail)[1..] == word[1..] + tail;
    }
  }

  /** A word between padding and a word end is the first word, and the rest of the scan starts behind it. */
  lemma FirstWord(pad: bytes, word: bytes, tail: bytes)
    requires AllSpace(pad) && IsWord(word) && EndsWord(tail)
    ensures AfterWord(pad + word + tail) == tail
    ensures Words(pad + word + tail) == [word] + Words(tail)
  {
    assert pad + word + tail == pad + (word + tail);
    LeadingSpacesOf(pad, word + tail);
    NoLeadingSpaces(word + tail);
    WordLengthOf(word, tail);
    assert (word + tail)[..|word|] == word && (word + tail)[|word|..] == tail;
  }

  lemma NoWords(pad: bytes)
    requires AllSpace(pad)
    ensures DropSpaces(pad) == [] && Words(pad) == [] && AfterWord(pad) == []
  {
    LeadingSpacesOf(pad, []);
    assert pad + [] == pad;
  }

  /** Every text with a word in it starts with padding, that word, and a word end. */
  lemma SplitFirstWord(text: bytes) returns (pad: bytes, word: bytes)
    requires Words(text) != []
    ensures AllSpace(pad) && IsWord(word) && EndsWord(AfterWord(text))
    ensures text == pad + word + AfterWord(text) && word == Words(text)[0] && Words(text)[1..] == Words(AfterWord(text))
    ensures EndsWord(text) ==> pad != []
  {
    hide Words, AfterWord, LeadingSpaces, WordLength, IsWord, AllSpace, EndsWord;
    var n := LeadingSpaces(text);
    var m := WordLength(text[n..]);
    pad, word := text[..n], text[n..][..m];
    LeadingSpacesEnd(text);
    WordEnds(text[n..]);
    NonSpaceStart(text);
    WordAtFront(text);
    SliceInThree(text, n, m);
    assert Words(text) == [word] + Words(AfterWord(text));
  }

  lemma SliceInThree(text: bytes, n: nat, m: nat)
    requires n <= |text| && m <= |text| - n
    ensures text == text[..n] + text[n..][..m] + text[n..][m..]
  {
  }

  lemma NonSpaceStart(text: bytes)
    ensures EndsWord(text) && DropSpaces(text) != [] ==> LeadingSpaces(text) > 0
  {
    LeadingSpacesEnd(text);
  }

  lemma {:induction false} TrimEndOf(text: bytes, pad: bytes)
    requires AllSpace(pad) && (text == [] || !IsSpace(text[|text| - 1]))
    ensures TrimEnd(text + pad) == text
  {
    if pad == [] {
      assert text + pad == text;
    } else {
      assert (text + pad)[..|text + pad| - 1] == text + pad[..|pad| - 1];
      TrimEndOf(text, pad[..|pad| - 1]);
    }
  }

  lemma TrimOf(pad: bytes, text: bytes, pad': bytes)
    requires AllSpace(pad) && AllSpace(pad') && IsTrimmed(text)
    ensures Trim(pad + text + pad') == text
  {
    assert pad + text + pad' == pad + (text + pad');
    LeadingSpacesOf(pad, text + pad');
    if text == [] {
      assert text + pad' == pad';
      NoWords(pad');
    } else {
      NoLeadingSpaces(text + pad');
      TrimEndOf(text, pad');
    }
  }

  lemma {:induction false} TrimEndSplits(text: bytes)
    ensures TrimEnd(text) <= text && AllSpace(text[|TrimEnd(text)|..])
    ensures TrimEnd(text) != [] ==> !IsSpace(TrimEnd(text)[|TrimEnd(text)| - 1])
    decreases |text|
  {
    if text != [] && IsSpace(text[|text| - 1]) {
      TrimEndSplits(text[..|text| - 1]);
    }
  }

  /** Trimming takes off exactly the spaces at the two ends. */
  lemma TrimSplits(text: bytes) returns (pad: bytes, pad': bytes)
    ensures text == pad + Trim(text) + pad' && AllSpace(pad) && AllSpace(pad') && IsTrimmed(Trim(text))
    ensures EndsWord(text) && Trim(text) != [] ==> pad != []
  {
    var t := DropSpaces(text);
    LeadingSpacesEnd(text);
    TrimEndSplits(t);
    pad, pad' := text[..LeadingSpaces(text)], t[|TrimEnd(t)|..];
    assert t == TrimEnd(t) + pad';
    assert text == pad + t;
    if Trim(text) != [] {
      assert Trim(text)[0] == t[0];
    }
  }

  // ------------------------------------------------------------ lines laid out as padded fields

  /** `pads[0] fields[0] pads[1] fields[1] ... pads[n]`. */
  function Joined(pads: seq<bytes>, fields: seq<bytes>): bytes
    requires |pads| == |fields| + 1
  {
    if fields == [] then pads[0] else pads[0] + fields[0] + Joined(pads[1..], fields[1..])
  }

  /** Padding is white space, and there is some of it between any two fields. */
  predicate WellSpaced(pads: seq<bytes>, fields: seq<bytes>) {
    && |pads| == |fields| + 1
    && (forall i :: 0 <= i < |pads| ==> AllSpace(pads[i]))
    && (forall i :: 0 < i < |fields| ==> pads[i] != [])
  }

  predicate AllWords(fields: seq<bytes>) {
    forall i :: 0 <= i < |fields| ==> IsWord(fields[i])
  }

  lemma JoinedEndsWord(pads: seq<bytes>, fields: seq<bytes>)
    requires WellSpaced(pads, fields) && (fields != [] ==> pads[0] != [])
    ensures EndsWord(Joined(pads, fields))
  {
    assert pads[0] != [] ==> IsSpace(pads[0][0]);
    if fields == [] {
      assert Joined(pads, fields) == pads[0];
    } else {
      assert Joined(pads, fields)[0] == pads[0][0];
    }
  }

  lemma {:induction false} WordsOfJoined(pads: seq<bytes>, fields: seq<bytes>)
    requires WellSpaced(pads, fields) && AllWords(fields)
    ensures Words(Joined(pads, fields)) == fields
  {
    hide Words;
    if fields == [] {
      NoWords(pads[0]);
    } else {
      JoinedEndsWord(pads[1..], fields[1..]);
      WordsOfJoined(pads[1..], fields[1..]);
      FirstWord(pads[0], fields[0], Joined(pads[1..], fields[1..]));
      assert fields == [fields[0]] + fields[1..];
    }
  }

  /** Any text is its words with white space around them. */
  lemma {:induction false} JoinedOfWords(text: bytes) returns (pads: seq<bytes>)
    ensures WellSpaced(pads, Words(text)) && AllWords(Words(text)) && Joined(pads, Words(text)) == text
    ensures EndsWord(text) && Words(text) != [] ==> pads[0] != []
    decreases |text|
  {
    hide Words, EndsWord, IsWord, AllSpace;
    if Words(text) == [] {
      NoWordsIsAllSpace(text);
      pads := [text];
    } else {
      var pad, word := SplitFirstWord(text);
      var tail := AfterWord(text);
      var more := JoinedOfWords(tail);
      pads := [pad] + more;
      assert pads[1..] == more;
    }
  }

  // ------------------------------------------------------------ trimming does not change the words

  lemma NoWordsIsAllSpace(text: bytes)
    requires Words(text) == []
    ensures AllSpace(text)
  {
    LeadingSpacesEnd(text);
    assert text[..LeadingSpaces(text)] == text;
  }

  lemma {:induction false} WordsBeforePad(text: bytes, pad: bytes)
    requires AllSpace(pad)
    ensures Words(text + pad) == Words(text)
    decreases |text|
  {
    hide Words, AfterWord, LeadingSpaces, WordLength;
    if Words(text) == [] {
      NoWordsIsAllSpace(text);
      NoWords(text + pad);
    } else {
      var before, word := SplitFirstWord(text);
      var tail := AfterWord(text);
      WordsBeforePad(tail, pad);
      FirstWord(before, word, tail + pad);
      FirstWord(before, word, tail);
      assert text + pad == before + word + (tail + pad);
    }
  }

  lemma WordsOfTrim(text: bytes)
    ensures Words(Trim(text)) == Words(text)
  {
    var pad, pad' := TrimSplits(text);
    var t := Trim(text);
    assert text == pad + (t + pad');
    LeadingSpacesOf(pad, t + pad');
    assert Words(text) == Words(t + pad');
    WordsBeforePad(t, pad');
  }

  lemma {:induction false} WordsAfter(text: bytes, n: nat)
    requires n <= |Words(text)|
    ensures Words(AfterWords(text, n)) == Words(text)[n..]
    decreases n
  {
    hide Words, AfterWord, IsWord, EndsWord, AllSpace;
    if n > 0 {
      var pad, word := SplitFirstWord(text);
      WordsAfter(AfterWord(text), n - 1);
      assert Words(text)[1..][n - 1..] == Words(text)[n..];
    }
  }

  /**
   The text after `n` words has exactly the remaining words, so once a `SET` line has three words its
   value is not empty and the parser's test for an empty value never succeeds.
   */
  lemma RestHasTheRemainingWords(text: bytes, n: nat)
    requires n <= |Words(text)|
    ensures Words(RestAfterWords(text, n)) == Words(text)[n..]
    ensures n < |Words(text)| ==> RestAfterWords(text, n) != []
  {
    WordsAfter(text, n);
    WordsOfTrim(AfterWords(text, n));
  }

  // ------------------------------------------------------------ numerals

  function Pow10(n: nat): nat {
    if n == 0 then 1 else 10 * Pow10(n - 1)
  }

  /** The sum of the digits, each times the power of ten of its place. */
  ghost function PlaceValue(text: bytes): int {
    if text == [] then 0 else (text[0] as int - '0' as int) * Pow10(|text| - 1) + PlaceValue(text[1..])
  }

  /** `text` is a number written in decimal digits. */
  ghost predicate IsNumeral(text: bytes, n: int) {
    && text != []
    && (forall i :: 0 <= i < |text| ==> '0' as int <= text[i] as int <= '9' as int)
    && PlaceValue(text) == n
  }

  lemma {:induction false} PlaceValueOfMore(text: bytes, digit: byte)
    ensures PlaceValue(text + [digit]) == 10 * PlaceValue(text) + (digit as int - '0' as int)
  {
    if text == [] {
      assert (text + [digit])[1..] == [];
    } else {
      PlaceValueOfMore(text[1..], digit);
      assert (text + [digit])[1..] == text[1..] + [digit];
      var d, p := text[0] as int - '0' as int, Pow10(|text| - 1);
      assert Pow10(|text|) == 10 * p;
      assert d * (10 * p) == 10 * (d * p);
    }
  }

  /** Accumulating digits from the left gives each the weight of its place. */
  lemma {:induction false} DecimalValueIsPlaceValue(digits: bytes)
    requires AllDigits(digits)
    ensures DecimalValue(digits) == PlaceValue(digits)
  {
    if digits != [] {
      var n := |digits| - 1;
      DecimalValueIsPlaceValue(digits[..n]);
      PlaceValueOfMore(digits[..n], digits[n]);
      assert digits[..n] + [digits[n]] == digits;
    }
  }

  /** The parser takes exactly the numerals of the values from 1 to 2147483647. */
  lemma PositiveIntIsNumeral(text: bytes, n: int)
    ensures PositiveInt(text) == Some(n) <==> IsNumeral(text, n) && 1 <= n <= 2147483647
  {
    if AllDigits(text) {
      DecimalValueIsPlaceValue(text);
    }
  }

  // ------------------------------------------------------------ the grammar

  /** `field` is the upper-case `word`, each letter in either case. */
  predicate SpellsWord(field: bytes, word: string) {
    && |field| == |word|
    && forall i :: 0 <= i < |word| ==>
         field[i] as int == word[i] as int || field[i] as int == word[i] as int + 32
  }

  predicate HasNoArgument(cmd: Command) {
    cmd.key == [] && cmd.value == [] && cmd.seconds == 0
  }

  predicate HasKeyOnly(cmd: Command, key: bytes) {
    IsWord(key) && cmd.key == key && cmd.value == [] && cmd.seconds == 0
  }

  /** The fields that spell a command, the command word in any letter case. */
  ghost predicate FieldsOf(cmd: Command, fields: seq<bytes>) {
    match cmd.kind
    case Ping => |fields| == 1 && SpellsWord(fields[0], "PING") && HasNoArgument(cmd)
    case Stats => |fields| == 1 && SpellsWord(fields[0], "STATS") && HasNoArgument(cmd)
    case Quit => |fields| == 1 && SpellsWord(fields[0], "QUIT") && HasNoArgument(cmd)
    case Help => |fields| == 1 && SpellsWord(fields[0], "HELP") && HasNoArgument(cmd)
    case Get => |fields| == 2 && SpellsWord(fields[0], "GET") && HasKeyOnly(cmd, fields[1])
    case Del => |fields| == 2 && SpellsWord(fields[0], "DEL") && HasKeyOnly(cmd, fields[1])
    case Ttl => |fields| == 2 && SpellsWord(fields[0], "TTL") && HasKeyOnly(cmd, fields[1])
    case Set =>
      && |fields| == 3 && SpellsWord(fields[0], "SET")
      && IsWord(fields[1]) && cmd.key == fields[1]
      && fields[2] != [] && IsTrimmed(fields[2]) && cmd.value == fields[2] && cmd.seconds == 0
    case Expire =>
      && |fields| == 3 && SpellsWord(fields[0], "EXPIRE")
      && IsWord(fields[1]) && cmd.key == fields[1]
      && IsNumeral(fields[2], cmd.seconds) && 1 <= cmd.seconds <= 2147483647 && cmd.value == []
    case Unknown => false
  }

  /** `line` lays out the fields of `cmd` with any white space around them. */
  ghost predicate Spells(line: bytes, cmd: Command) {
    cmd.raw == line
    && exists pads, fields :: FieldsOf(cmd, fields) && WellSpaced(pads, fields) && Joined(pads, fields) == line
  }

  lemma UpperSpells(field: bytes, word: string, upper: bytes)
    requires |upper| == |word|
    requires forall i :: 0 <= i < |word| ==> 'A' <= word[i] <= 'Z' && upper[i] as int == word[i] as int
    ensures Upper(field) == upper <==> SpellsWord(field, word)
  {
    if SpellsWord(field, word) {
      assert forall i :: 0 <= i < |field| ==> UpperByte(field[i]) == upper[i];
    }
    if Upper(field) == upper {
      forall i | 0 <= i < |word|
        ensures field[i] as int == word[i] as int || field[i] as int == word[i] as int + 32
      {
        assert UpperByte(field[i]) == Upper(field)[i] == upper[i];
      }
    }
  }

  lemma CommandWords(field: bytes)
    ensures Upper(field) == PING <==> SpellsWord(field, "PING")
    ensures Upper(field) == STATS <==> SpellsWord(field, "STATS")
    ensures Upper(field) == QUIT <==> SpellsWord(field, "QUIT")
    ensures Upper(field) == HELP <==> SpellsWord(field, "HELP")
    ensures Upper(field) == GET <==> SpellsWord(field, "GET")
    ensures Upper(field) == DEL <==> SpellsWord(field, "DEL")
    ensures Upper(field) == TTL <==> SpellsWord(field, "TTL")
    ensures Upper(field) == SET <==> SpellsWord(field, "SET")
    ensures Upper(field) == EXPIRE <==> SpellsWord(field, "EXPIRE")
  {
    hide Upper, SpellsWord;
    UpperSpells(field, "PING", PING);
    UpperSpells(field, "STATS", STATS);
    UpperSpells(field, "QUIT", QUIT);
    UpperSpells(field, "HELP", HELP);
    UpperSpells(field, "GET", GET);
    UpperSpells(field, "DEL", DEL);
    UpperSpells(field, "TTL", TTL);
    UpperSpells(field, "SET", SET);
    UpperSpells(field, "EXPIRE", EXPIRE);
  }

  lemma SpelledWordIsWord(field: bytes, word: string)
    requires SpellsWord(field, word) && word != [] && forall i :: 0 <= i < |word| ==> 'A' <= word[i] <= 'Z'
    ensures IsWord(field)
  {
  }

  lemma NumeralIsWord(text: bytes, n: int)
    requires IsNumeral(text, n)
    ensures IsWord(text)
  {
    hide PlaceValue;
  }

  lemma {:induction false} WidenPads(pad: bytes, pads: seq<bytes>, fields: seq<bytes>, pad': bytes)
    returns (wide: seq<bytes>)
    requires AllSpace(pad) && AllSpace(pad') && WellSpaced(pads, fields)
    ensures WellSpaced(wide, fields) && Joined(wide, fields) == pad + Joined(pads, fields) + pad'
    ensures pads[0] != [] ==> wide[0] != []
    decreases |fields|
  {
    if fields == [] {
      wide := [pad + pads[0] + pad'];
    } else {
      var more := WidenPads([], pads[1..], fields[1..], pad');
      wide := [pad + pads[0]] + more;
      assert wide[1..] == more;
      assert Joined(wide, fields) == pad + pads[0] + fields[0] + ([] + Joined(pads[1..], fields[1..]) + pad');
      assert forall i :: 0 < i < |wide| ==> wide[i] == more[i - 1];
    }
  }

  lemma WordLinesAreJoined(line: bytes) returns (pads: seq<bytes>)
    ensures WellSpaced(pads, Words(Trim(line))) && Joined(pads, Words(Trim(line))) == line
  {
    hide Words, Joined, WellSpaced;
    var pad, pad' := TrimSplits(line);
    var inner := JoinedOfWords(Trim(line));
    pads := WidenPads(pad, inner, Words(Trim(line)), pad');
  }

  lemma JoinedOfThree(pads: seq<bytes>, a: bytes, b: bytes, c: bytes)
    requires |pads| == 4
    ensures Joined(pads, [a, b, c]) == pads[0] + a + (pads[1] + b + (pads[2] + c + pads[3]))
  {
    assert [a, b, c][1..] == [b, c] && [b, c][1..] == [c] && [c][1..] == [];
    assert Joined(pads[1..][1..][1..], []) == pads[3];
    assert Joined(pads[1..][1..], [c]) == pads[2] + c + pads[3];
    assert Joined(pads[1..], [b, c]) == pads[1] + b + (pads[2] + c + pads[3]);
  }

  lemma SecondRest(text: bytes)
    requires |Words(text)| >= 3
    ensures RestAfterWords(text, 2) == Trim(AfterWord(AfterWord(text))) && RestAfterWords(text, 2) != []
    ensures |Words(AfterWord(text))| >= 2 && Words(text)[1] == Words(AfterWord(text))[0]
  {
    RestHasTheRemainingWords(text, 2);
    assert AfterWords(text, 2) == AfterWords(AfterWord(text), 1) == AfterWords(AfterWord(AfterWord(text)), 0);
  }

  /** A text of at least three words is two words and a trimmed rest, with white space between. */
  lemma TextHasThreeParts(text: bytes) returns (pads: seq<bytes>, op: bytes, key: bytes, value: bytes)
    requires |Words(text)| >= 3
    ensures op == Words(text)[0] && key == Words(text)[1] && value == RestAfterWords(text, 2)
    ensures IsWord(op) && IsWord(key) && value != [] && IsTrimmed(value)
    ensures WellSpaced(pads, [op, key, value]) && Joined(pads, [op, key, value]) == text
  {
    hide Words, Joined, AfterWords, AfterWord, RestAfterWords, Trim, EndsWord, IsWord, IsTrimmed, AllSpace;
    SecondRest(text);
    var t1 := AfterWord(text);
    var t2 := AfterWord(t1);
    var pad0, pad1, pad2, pad3;
    pad0, op := SplitFirstWord(text);
    pad1, key := SplitFirstWord(t1);
    pad2, pad3 := TrimSplits(t2);
    value := Trim(t2);
    pads := [pad0, pad1, pad2, pad3];
    JoinedOfThree(pads, op, key, value);
    assert text == pad0 + op + (pad1 + key + (pad2 + value + pad3));
  }

  lemma RestLinesAreJoined(line: bytes) returns (pads: seq<bytes>)
    requires |Words(Trim(line))| >= 3
    ensures
      var text := Trim(line);
      var fields := [Words(text)[0], Words(text)[1], RestAfterWords(text, 2)];
      && IsWord(fields[0]) && IsWord(fields[1]) && fields[2] != [] && IsTrimmed(fields[2])
      && WellSpaced(pads, fields) && Joined(pads, fields) == line
  {
    hide Words, Joined, WellSpaced, RestAfterWords, IsWord, IsTrimmed;
    var outer, outer' := TrimSplits(line);
    var inner, op, key, value := TextHasThreeParts(Trim(line));
    pads := WidenPads(outer, inner, [op, key, value], outer');
  }

  /** Without a `SET`, the words of a line are the fields of what the parser makes of it. */
  lemma WordsAreFields(line: bytes, parts: seq<bytes>, rest: bytes)
    requires AllWords(parts) && Interpret(line, parts, rest).kind !in {Unknown, CommandType.Set}
    ensures FieldsOf(Interpret(line, parts, rest), parts)
  {
    hide Upper, SpellsWord, IsWord, IsNumeral, PositiveInt;
    CommandWords(parts[0]);
    if |parts| == 3 {
      PositiveIntIsNumeral(parts[2], Interpret(line, parts, rest).seconds);
    }
  }

  lemma FieldsAreWords(line: bytes, cmd: Command, fields: seq<bytes>, rest: bytes)
    requires FieldsOf(cmd, fields) && cmd.kind != CommandType.Set && cmd.raw == line
    ensures AllWords(fields) && Interpret(line, fields, rest) == cmd
  {
    hide Upper, SpellsWord, IsWord, IsNumeral, PositiveInt;
    CommandWords(fields[0]);
    FirstFieldIsWord(cmd, fields);
    if |fields| == 3 {
      PositiveIntIsNumeral(fields[2], cmd.seconds);
      NumeralIsWord(fields[2], cmd.seconds);
    }
  }

  lemma FirstFieldIsWord(cmd: Command, fields: seq<bytes>)
    requires FieldsOf(cmd, fields)
    ensures fields != [] && IsWord(fields[0])
  {
    hide IsNumeral;
  }

  lemma SetPartsAreFields(line: bytes, parts: seq<bytes>, rest: bytes)
    requires AllWords(parts) && rest != [] && IsTrimmed(rest)
    requires Interpret(line, parts, rest).kind == CommandType.Set
    ensures FieldsOf(Interpret(line, parts, rest), [parts[0], parts[1], rest])
  {
    hide Upper, SpellsWord, IsWord, PositiveInt, IsTrimmed;
    CommandWords(parts[0]);
  }

  lemma SetFieldsAreParts(line: bytes, cmd: Command, fields: seq<bytes>, more: seq<bytes>)
    requires FieldsOf(cmd, fields) && cmd.kind == CommandType.Set && cmd.raw == line && more != []
    ensures Interpret(line, [fields[0], fields[1]] + more, fields[2]) == cmd
  {
    hide Upper, SpellsWord, IsWord, PositiveInt, IsTrimmed;
    CommandWords(fields[0]);
    var parts := [fields[0], fields[1]] + more;
    assert parts[0] == fields[0] && parts[1] == fields[1];
  }

  lemma LinesSpellWhatTheyParseTo(line: bytes)
    requires Parse(line).kind != Unknown
    ensures Spells(line, Parse(line))
  {
    hide Words, Joined, WellSpaced, RestAfterWords, Interpret, FieldsOf, IsTrimmed;
    var cmd, text := Parse(line), Trim(line);
    var parts := Words(text);
    var inner := JoinedOfWords(text);
    InterpretKeepsLine(line, parts, RestAfterWords(text, 2));
    if cmd.kind == Set {
      InterpretedSet(line, parts, RestAfterWords(text, 2));
      var pads := RestLinesAreJoined(line);
      SetPartsAreFields(line, parts, RestAfterWords(text, 2));
    } else {
      var pads := WordLinesAreJoined(line);
      WordsAreFields(line, parts, RestAfterWords(text, 2));
    }
  }

  lemma InterpretKeepsLine(line: bytes, parts: seq<bytes>, rest: bytes)
    ensures Interpret(line, parts, rest).raw == line
  {
    hide Upper, PositiveInt;
  }

  lemma InterpretedSet(line: bytes, parts: seq<bytes>, rest: bytes)
    requires Interpret(line, parts, rest).kind == CommandType.Set
    ensures |parts| >= 3
  {
    hide Upper, PositiveInt;
  }

  lemma SetTextParts(op: bytes, pad1: bytes, key: bytes, pad2: bytes, value: bytes)
    requires AllSpace(pad1) && pad1 != [] && AllSpace(pad2) && pad2 != []
    requires IsWord(op) && IsWord(key) && value != [] && IsTrimmed(value)
    ensures
      var text := op + (pad1 + key + (pad2 + value));
      && Words(text) == [op, key] + Words(value) && Words(value) != []
      && RestAfterWords(text, 2) == value
  {
    hide Words, AfterWord, Trim, IsTrimmed, IsWord, AllSpace, EndsWord;
    var t2 := pad2 + value;
    var t1 := pad1 + key + t2;
    assert pad1 + (key + t2) == t1;
    SpaceEndsWord(pad2, value);
    SpaceEndsWord(pad1, key + t2);
    ValueIsTheRest(pad2, value);
    NoPadding();
    FirstWord([], op, t1);
    FirstWord(pad1, key, t2);
    assert [] + op + t1 == op + t1;
    assert AfterWords(op + t1, 2) == AfterWords(t1, 1) == AfterWords(t2, 0);
    assert [op] + ([key] + Words(value)) == [op, key] + Words(value);
  }

  lemma NoPadding()
    ensures AllSpace([])
  {
  }

  lemma ValueIsTheRest(pad: bytes, value: bytes)
    requires AllSpace(pad) && value != [] && IsTrimmed(value)
    ensures Words(pad + value) == Words(value) && Words(value) != [] && Trim(pad + value) == value
  {
    NoLeadingSpaces(value);
    LeadingSpacesOf(pad, value);
    assert pad + value + [] == pad + value;
    TrimOf(pad, value, []);
  }

  lemma SetLinesParse(pads: seq<bytes>, op: bytes, key: bytes, value: bytes)
    requires WellSpaced(pads, [op, key, value])
    requires IsWord(op) && IsWord(key) && value != [] && IsTrimmed(value)
    ensures
      var text := Trim(Joined(pads, [op, key, value]));
      && Words(text) == [op, key] + Words(value) && Words(value) != []
      && RestAfterWords(text, 2) == value
  {
    hide Words, AfterWords, Trim, RestAfterWords, Joined;
    var text := op + (pads[1] + key + (pads[2] + value));
    JoinedOfThree(pads, op, key, value);
    assert Joined(pads, [op, key, value]) == pads[0] + text + pads[3];
    assert text[0] == op[0] && text[|text| - 1] == value[|value| - 1];
    TrimOf(pads[0], text, pads[3]);
    SetTextParts(op, pads[1], key, pads[2], value);
  }

  lemma SpelledSetLinesParse(line: bytes, cmd: Command, pads: seq<bytes>, fields: seq<bytes>)
    requires FieldsOf(cmd, fields) && WellSpaced(pads, fields) && Joined(pads, fields) == line
    requires cmd.kind == Set && cmd.raw == line
    ensures Parse(line) == cmd
  {
    hide Words, Joined, WellSpaced, RestAfterWords, Trim, IsWord, IsTrimmed, Interpret, SpellsWord;
    FirstFieldIsWord(cmd, fields);
    assert fields == [fields[0], fields[1], fields[2]];
    SetLinesParse(pads, fields[0], fields[1], fields[2]);
    SetFieldsAreParts(line, cmd, fields, Words(fields[2]));
  }

  lemma SpelledWordLinesParse(line: bytes, cmd: Command, pads: seq<bytes>, fields: seq<bytes>)
    requires FieldsOf(cmd, fields) && WellSpaced(pads, fields) && Joined(pads, fields) == line
    requires cmd.kind != Set && cmd.raw == line
    ensures Parse(line) == cmd
  {
    hide Words, Joined, AllWords, WellSpaced, RestAfterWords, Trim, Interpret, FieldsOf;
    FieldsAreWords(line, cmd, fields, RestAfterWords(Trim(line), 2));
    WordsOfJoined(pads, fields);
    WordsOfTrim(line);
  }

  lemma SpelledLinesParse(line: bytes, cmd: Command)
    requires Spells(line, cmd)
    ensures Parse(line) == cmd
  {
    hide Joined, FieldsOf, Parse;
    var pads, fields :| FieldsOf(cmd, fields) && WellSpaced(pads, fields) && Joined(pads, fields) == line;
    if cmd.kind == Set {
      SpelledSetLinesParse(line, cmd, pads, fields);
    } else {
      SpelledWordLinesParse(line, cmd, pads, fields);
    }
  }

  /** The parser accepts exactly the lines of the grammar, with exactly the command they spell. */
  lemma ParserMeetsItsGrammar(line: bytes, cmd: Command)
    requires cmd.kind != Unknown
    ensures Parse(line) == cmd <==> Spells(line, cmd)
  {
    hide Parse, Spells;
    if Parse(line) == cmd {
      LinesSpellWhatTheyParseTo(line);
    }
    if Spells(line, cmd) {
      SpelledLinesParse(line, cmd);
    }
  }

  /** Every other line is unknown, kept as it came, and taken for a command with no argument. */
  lemma OtherLinesAreUnknown(line: bytes)
    ensures Parse(line).kind == Unknown <==> !exists cmd :: Spells(line, cmd)
    ensures Parse(line).kind == Unknown ==> Parse(line) == Command(Unknown, [], [], 0, line)
  {
    hide Spells, Words, RestAfterWords, Trim, Upper, PositiveInt;
    if Parse(line).kind != Unknown {
      LinesSpellWhatTheyParseTo(line);
    }
    forall cmd | Spells(line, cmd)
      ensures Parse(line).kind != Unknown
    {
      SpellingIsKnown(line, cmd);
      SpelledLinesParse(line, cmd);
    }
  }

  lemma SpellingIsKnown(line: bytes, cmd: Command)
    requires Spells(line, cmd)
    ensures cmd.kind != Unknown
  {
    hide Joined, WellSpaced;
  }

  /** White space is exactly the blank, tab, line feed, vertical tab, form feed and carriage return. */
  lemma SixBytesSeparateWords(a: bytes, b: byte, c: bytes)
    requires a != [] && c != [] && forall x :: x in a + c ==> '!' as int <= x as int
    ensures Words(a + [b] + c) == if b as int in {32, 9, 10, 11, 12, 13} then [a, c] else [a + [b] + c]
  {
    hide Words;
    assert forall i :: 0 <= i < |a| ==> a[i] in a + c;
    assert forall i :: 0 <= i < |c| ==> c[i] in a + c;
    var pads := if IsSpace(b) then [[], [b], []] else [[], []];
    var fields := if IsSpace(b) then [a, c] else [a + [b] + c];
    if IsSpace(b) {
      assert fields[1..] == [c] && pads[1..] == [[b], []] && pads[1..][1..] == [[]] && [c][1..] == [];
      assert Joined(pads[1..], [c]) == [b] + c + [];
      assert Joined(pads, fields) == [] + a + ([b] + c + []) == a + [b] + c;
    } else {
      assert fields[1..] == [] && pads[1..] == [[]];
      assert Joined(pads, fields) == [] + (a + [b] + c) + [] == a + [b] + c;
    }
    WordsOfJoined(pads, fields);
  }

  lemma SetLayoutLength(cmd: Command, pads: seq<bytes>, fields: seq<bytes>)
    requires cmd.kind == Set && FieldsOf(cmd, fields) && WellSpaced(pads, fields)
    ensures |cmd.value| + 6 <= |Joined(pads, fields)|
  {
    hide Joined;
    assert fields == [fields[0], fields[1], fields[2]];
    JoinedOfThree(pads, fields[0], fields[1], fields[2]);
  }

  /** A `SET` line has at least six bytes besides its value. */
  lemma SetValueIsShorterThanItsLine(line: bytes)
    requires Parse(line).kind == Set
    ensures |Parse(line).value| + 6 <= |line|
  {
    hide Joined, FieldsOf, Parse;
    LinesSpellWhatTheyParseTo(line);
    var pads, fields :| FieldsOf(Parse(line), fields) && WellSpaced(pads, fields) && Joined(pads, fields) == line;
    SetLayoutLength(Parse(line), pads, fields);
  }

  // ------------------------------------------------------------ numbers

  lemma {:induction false} DecimalValueGrows(digits: bytes, more: bytes)
    requires AllDigits(digits + more)
    ensures AllDigits(digits) && DecimalValue(digits) <= DecimalValue(digits + more)
  {
    assert forall i :: 0 <= i < |digits| ==> digits[i] == (digits + more)[i];
    if more == [] {
      assert digits + more == digits;
    } else {
      assert (digits + more)[..|digits + more| - 1] == digits + more[..|more| - 1];
      DecimalValueGrows(digits, more[..|more| - 1]);
    }
  }

  /** `std::to_string` of a non-negative integer. */
  function Decimal(n: nat): (text: bytes)
    ensures text != [] && AllDigits(text)
  {
    if n < 10 then [(48 + n) as byte] else Decimal(n / 10) + [(48 + n % 10) as byte]
  }

  /** Printing a positive `int` and reading it back gives it back. */
  lemma {:induction false} PositiveIntReadsDecimal(n: nat)
    ensures DecimalValue(Decimal(n)) == n
    ensures 1 <= n <= INT_MAX ==> PositiveInt(Decimal(n)) == Some(n)
  {
    var text := Decimal(n);
    if n >= 10 {
      PositiveIntReadsDecimal(n / 10);
      assert text[..|text| - 1] == Decimal(n / 10);
    } else {
      assert text[..|text| - 1] == [];
    }
  }

  /** `text` is a number as `std::to_string` writes it, without leading zeros. */
  ghost predicate IsPrinted(text: bytes, n: nat) {
    IsNumeral(text, n) && (|text| > 1 ==> text[0] as int != '0' as int)
  }

  lemma {:induction false} DecimalHasNoLeadingZero(n: nat)
    ensures n > 0 ==> Decimal(n)[0] as int != '0' as int
  {
    if n >= 10 {
      DecimalHasNoLeadingZero(n / 10);
      assert Decimal(n)[0] == Decimal(n / 10)[0];
    }
  }

  lemma DecimalIsPrinted(n: nat)
    ensures IsPrinted(Decimal(n), n)
  {
    PositiveIntReadsDecimal(n);
    DecimalValueIsPlaceValue(Decimal(n));
    DecimalHasNoLeadingZero(n);
  }

  lemma ExpireSecondsFit(line: bytes)
    requires Parse(line).kind == Expire
    ensures 1 <= Parse(line).seconds <= INT_MAX
  {
    hide Words, RestAfterWords, Trim, PositiveInt, Upper;
  }

  // ------------------------------------------------------------ the scanning loops

  method TrimText(text: bytes) returns (trimmed: bytes)
    ensures trimmed == Trim(text)
  {
    var begin := 0;
    while begin < |text| && IsSpace(text[begin])
      invariant begin <= |text| && DropSpaces(text[begin..]) == DropSpaces(text)
    {
      assert text[begin..][1..] == text[begin + 1..];
      begin := begin + 1;
    }
    assert DropSpaces(text) == text[begin..];
    var end := |text|;
    assert text[begin..] == text[begin..end];
    while end > begin && IsSpace(text[end - 1])
      invariant begin <= end <= |text| && TrimEnd(text[begin..end]) == Trim(text)
    {
      assert text[begin..end][..end - begin - 1] == text[begin..end - 1];
      end := end - 1;
    }
    return text[begin..end];
  }

  method UpperCopy(text: bytes) returns (upper: bytes)
    ensures upper == Upper(text)
  {
    upper := [];
    for i := 0 to |text|
      invariant upper == Upper(text[..i])
    {
      assert text[..i + 1] == text[..i] + [text[i]];
      upper := upper + [UpperByte(text[i])];
    }
    assert text[..|text|] == text;
  }

  method SkipSpaces(text: bytes, pos: nat) returns (start: nat)
    requires pos <= |text|
    ensures pos <= start <= |text| && text[start..] == DropSpaces(text[pos..])
  {
    start := pos;
    while start < |text| && IsSpace(text[start])
      invariant pos <= start <= |text| && DropSpaces(text[start..]) == DropSpaces(text[pos..])
    {
      assert text[start..][1..] == text[start + 1..];
      start := start + 1;
    }
  }

  method SkipWord(text: bytes, start: nat) returns (end: nat)
    requires start <= |text|
    ensures start <= end <= |text| && end == start + WordLength(text[start..])
  {
    end := start;
    while end < |text| && !IsSpace(text[end])
      invariant start <= end <= |text| && end - start + WordLength(text[end..]) == WordLength(text[start..])
    {
      assert text[end..][1..] == text[end + 1..];
      end := end + 1;
    }
  }

  /** Reads one word as `operator>>` does, from `pos`. */
  method NextWord(text: bytes, pos: nat) returns (start: nat, end: nat)
    requires pos <= |text|
    ensures pos <= start <= end <= |text| && (start < |text| ==> start < end)
    ensures start == |text| ==> Words(text[pos..]) == [] && AfterWord(text[pos..]) == []
    ensures start < |text| ==> Words(text[pos..]) == [text[start..end]] + Words(text[end..])
    ensures text[end..] == AfterWord(text[pos..])
  {
    hide Words, AfterWord, DropSpaces, WordLength;
    start := SkipSpaces(text, pos);
    end := SkipWord(text, start);
    WordAtFront(text[pos..]);
    assert text[start..][..end - start] == text[start..end] && text[start..][end - start..] == text[end..];
  }

  lemma WordAtFront(text: bytes)
    ensures
      var t := DropSpaces(text);
      && AfterWord(text) == t[WordLength(t)..]
      && (t == [] ==> Words(text) == [])
      && (t != [] ==> WordLength(t) > 0 && Words(text) == [t[..WordLength(t)]] + Words(t[WordLength(t)..]))
  {
    LeadingSpacesEnd(text);
  }

  method SplitWords(text: bytes) returns (words: seq<bytes>)
    ensures words == Words(text)
  {
    hide Words, AfterWord;
    words := [];
    var pos := 0;
    NoWords([]);
    assert text[0..] == text && text[|text|..] == [];
    while pos < |text|
      invariant pos <= |text| && words + Words(text[pos..]) == Words(text)
      decreases |text| - pos
    {
      var start, end := NextWord(text, pos);
      if start == |text| {
        pos := |text|;
        break;
      }
      words := words + [text[start..end]];
      pos := end;
    }
  }

  method RestAfterNWords(text: bytes, count: nat) returns (rest: bytes)
    ensures rest == RestAfterWords(text, count)
  {
    hide Words, AfterWord, DropSpaces, TrimEnd, AfterWords, WordLength;
    var pos := 0;
    assert text[0..] == text;
    for i := 0 to count
      invariant pos <= |text| && AfterWords(text[pos..], count - i) == AfterWords(text, count)
    {
      var start, end := NextWord(text, pos);
      OneWordLess(text[pos..], count - i);
      if start == |text| {
        assert text[end..] == [];
        NothingAfterNothing(count - i - 1);
        return [];
      }
      pos := end;
    }
    NoWordsLess(text[pos..]);
    var start := SkipSpaces(text, pos);
    TrimDropsFirst(text[pos..]);
    if start == |text| {
      assert text[start..] == [];
      NothingAfterNothing(0);
      return [];
    }
    rest := TrimText(text[start..]);
  }

  lemma OneWordLess(text: bytes, n: nat)
    requires n > 0
    ensures AfterWords(text, n) == AfterWords(AfterWord(text), n - 1)
  {
  }

  lemma NoWordsLess(text: bytes)
    ensures AfterWords(text, 0) == text
  {
  }

  lemma TrimDropsFirst(text: bytes)
    ensures Trim(text) == Trim(DropSpaces(text))
  {
    hide TrimEnd;
    LeadingSpacesEnd(text);
    assert LeadingSpaces(DropSpaces(text)) == 0;
  }

  lemma {:induction false} NothingAfterNothing(n: nat)
    ensures AfterWords([], n) == [] && Trim([]) == []
  {
    if n > 0 {
      NothingAfterNothing(n - 1);
    }
  }

  /** The accumulator never passes 10 * 2^31, far below the 64 bits it has. */
  method ParsePositiveInt(text: bytes) returns (value: Option<int>)
    ensures value == PositiveInt(text)
  {
    if text == [] {
      return None;
    }
    var result := 0;
    for i := 0 to |text|
      invariant AllDigits(text[..i]) && result == DecimalValue(text[..i]) && result <= INT_MAX
    {
      if !IsDigit(text[i]) {
        return None;
      }
      assert text[..i + 1][..i] == text[..i];
      assert text[..i + 1] + text[i + 1..] == text;
      result := result * 10 + (text[i] as int - 48);
      assert result < 0x7FFF_FFFF_FFFF_FFFF;
      if result > INT_MAX {
        if AllDigits(text) {
          DecimalValueGrows(text[..i + 1], text[i + 1..]);
        }
        return None;
      }
    }
    assert text[..|text|] == text;
    if result <= 0 {
      return None;
    }
    return Some(result);
  }

  method ParseCommand(line: bytes) returns (cmd: Command)
    ensures cmd == Parse(line)
  {
    hide Trim, Words, RestAfterWords, PositiveInt, Upper;
    var text := TrimText(line);
    var parts := SplitWords(text);
    if parts == [] {
      return MakeUnknown(line);
    }
    var op := UpperCopy(parts[0]);
    var (kind, count) := BasicKind(op);
    if kind != Unknown {
      if |parts| != count {
        return MakeUnknown(line);
      }
      return Command(kind, if count == 2 then parts[1] else [], [], 0, line);
    }
    if op == SET {
      if |parts| < 3 {
        return MakeUnknown(line);
      }
      var value := RestAfterNWords(text, 2);
      if value == [] {
        return MakeUnknown(line);
      }
      return Command(Set, parts[1], value, 0, line);
    }
    if op == EXPIRE {
      if |parts| != 3 {
        return MakeUnknown(line);
      }
      var seconds := ParsePositiveInt(parts[2]);
      if seconds.None? {
        return MakeUnknown(line);
      }
      return Command(Expire, parts[1], [], seconds.value, line);
    }
    return MakeUnknown(line);
  }
}
