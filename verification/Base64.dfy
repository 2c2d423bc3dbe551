/** The standard base64 alphabet and padding of section 4 of RFC 4648. */
module Base64 {
  import opened Common

  predicate IsSymbol(c: char) {
    'A' <= c <= 'Z' || 'a' <= c <= 'z' || '0' <= c <= '9' || c == '+' || c == '/'
  }

  /** The symbol for a six-bit value. */
  function Symbol(v: nat): (c: char)
    requires v < 64
    ensures IsSymbol(c)
  {
    if v < 26 then 'A' + v as char
    else if v < 52 then 'a' + (v - 26) as char
    else if v < 62 then '0' + (v - 52) as char
    else if v == 62 then '+' else '/'
  }

  function Value(c: char): (v: nat)
    requires IsSymbol(c)
    ensures v < 64
  {
    if 'A' <= c <= 'Z' then c as int - 'A' as int
    else if 'a' <= c <= 'z' then c as int - 'a' as int + 26
    else if '0' <= c <= '9' then c as int - '0' as int + 52
    else if c == '+' then 62 else 63
  }

  lemma ValueOfSymbol(v: nat)
    requires v < 64
    ensures Value(Symbol(v)) == v
  {}

  // The four six-bit values of a group of three bytes.

  function Sextet1(x: Byte): (v: nat)
    ensures v < 64
  {
    x as int / 4
  }

  function Sextet2(x: Byte, y: Byte): (v: nat)
    ensures v < 64
  {
    x as int % 4 * 16 + y as int / 16
  }

  function Sextet3(y: Byte, z: Byte): (v: nat)
    ensures v < 64
  {
    y as int % 16 * 4 + z as int / 64
  }

  function Sextet4(z: Byte): (v: nat)
    ensures v < 64
  {
    z as int % 64
  }

  /** Three bytes per group of four characters; a last one or two bytes are padded with zeros. */
  function Encode(data: Bytes): string {
    if |data| == 0 then ""
    else if |data| == 1 then
      [Symbol(Sextet1(data[0])), Symbol(Sextet2(data[0], 0)), '=', '=']
    else if |data| == 2 then
      [Symbol(Sextet1(data[0])), Symbol(Sextet2(data[0], data[1])), Symbol(Sextet3(data[1], 0)), '=']
    else Group(data[0], data[1], data[2]) + Encode(data[3..])
  }

  function Group(x: Byte, y: Byte, z: Byte): string {
    [Symbol(Sextet1(x)), Symbol(Sextet2(x, y)), Symbol(Sextet3(y, z)), Symbol(Sextet4(z))]
  }

  /** Decoding of padded text; any other character or length is an error. */
  function Decode(text: string): Option<Bytes> {
    if text == "" then Some([])
    else if |text| < 4 || !IsSymbol(text[0]) || !IsSymbol(text[1]) then None
    else
      var a, b := Value(text[0]), Value(text[1]);
      if text[2..] == "==" then Some([First(a, b)])
      else if !IsSymbol(text[2]) then None
      else
        var c := Value(text[2]);
        if text[3..] == "=" then Some([First(a, b), Second(b, c)])
        else if !IsSymbol(text[3]) then None
        else
          match Decode(text[4..])
          case None => None
          case Some(rest) => Some([First(a, b), Second(b, c), Third(c, Value(text[3]))] + rest)
  }

  function First(a: nat, b: nat): Byte
    requires a < 64 && b < 64
  {
    a * 4 + b / 16
  }

  function Second(b: nat, c: nat): Byte
    requires b < 64 && c < 64
  {
    b % 16 * 16 + c / 4
  }

  function Third(c: nat, d: nat): Byte
    requires c < 64 && d < 64
  {
    c % 4 * 64 + d
  }

  /** The six-bit values of a group determine its bytes. */
  lemma GroupBits(x: Byte, y: Byte, z: Byte)
    ensures First(Sextet1(x), Sextet2(x, y)) == x
    ensures Second(Sextet2(x, y), Sextet3(y, z)) == y
    ensures Third(Sextet3(y, z), Sextet4(z)) == z
  {}

  /** Decoding gives back what was encoded. */
  lemma {:induction false} RoundTrip(data: Bytes)
    ensures Decode(Encode(data)) == Some(data)
  {
    hide Decode, Group, Symbol;
    if |data| == 0 {
      NothingToDecode();
    } else if |data| == 1 {
      OneByte(data[0]);
      assert data == [data[0]];
    } else if |data| == 2 {
      TwoBytes(data[0], data[1]);
      assert data == [data[0], data[1]];
    } else {
      FullGroup(data[0], data[1], data[2], Encode(data[3..]));
      RoundTrip(data[3..]);
      assert data == [data[0], data[1], data[2]] + data[3..];
    }
  }

  lemma NothingToDecode()
    ensures Decode("") == Some([])
  {}

  lemma OneByte(x: Byte)
    ensures Decode(Encode([x])) == Some([x])
  {
    hide Symbol, Value, IsSymbol, First, Sextet1, Sextet2, Sextet3, Sextet4;
    ValueOfSymbol(Sextet1(x));
    ValueOfSymbol(Sextet2(x, 0));
    GroupBits(x, 0, 0);
    assert Encode([x])[2..] == "==";
  }

  lemma TwoBytes(x: Byte, y: Byte)
    ensures Decode(Encode([x, y])) == Some([x, y])
  {
    hide Symbol, Value, IsSymbol, First, Second, Sextet1, Sextet2, Sextet3, Sextet4;
    ValueOfSymbol(Sextet1(x));
    ValueOfSymbol(Sextet2(x, y));
    ValueOfSymbol(Sextet3(y, 0));
    SymbolIsNotPadding(Sextet3(y, 0));
    GroupBits(x, y, 0);
    assert Encode([x, y])[2..][0] != '=';
    assert Encode([x, y])[3..] == "=";
  }

  lemma FullGroup(x: Byte, y: Byte, z: Byte, tail: string)
    ensures Decode(Group(x, y, z) + tail) ==
            match Decode(tail) case None => None case Some(rest) => Some([x, y, z] + rest)
  {
    hide Symbol, Value, IsSymbol, First, Second, Third, Sextet1, Sextet2, Sextet3, Sextet4;
    ValueOfSymbol(Sextet1(x));
    ValueOfSymbol(Sextet2(x, y));
    ValueOfSymbol(Sextet3(y, z));
    ValueOfSymbol(Sextet4(z));
    GroupBits(x, y, z);
    SymbolIsNotPadding(Sextet3(y, z));
    SymbolIsNotPadding(Sextet4(z));
    var text := Group(x, y, z) + tail;
    assert text[4..] == tail;
    assert text[2..][0] == text[2] && text[3..][0] == text[3];
  }

  lemma SymbolIsNotPadding(v: nat)
    requires v < 64
    ensures Symbol(v) != '='
  {}

  /** Encoded text holds only alphabet characters and padding. */
  lemma {:induction false} EncodedCharacters(data: Bytes)
    ensures forall c <- Encode(data) :: IsSymbol(c) || c == '='
  {
    if |data| >= 3 {
      EncodedCharacters(data[3..]);
    }
  }

  /** Encodings from section 10 of RFC 4648, and two that use the last symbols of the alphabet. */
  lemma KnownEncodings()
    ensures Encode([102]) == "Zg=="
    ensures Encode([102, 111]) == "Zm8="
    ensures Encode([102, 111, 111]) == "Zm9v"
    ensures Encode([102, 111, 111, 98, 97, 114]) == "Zm9vYmFy"
    ensures Encode([251, 239, 190]) == "++++" && Encode([255, 255, 255]) == "////"
    ensures Encode([0, 0, 0]) == "AAAA"
  {
    ShortEncodings();
    GroupSymbols();
    EdgeSymbols();
    hide Group;
    OneGroup(102, 111, 111);
    OneGroup(98, 97, 114);
    OneGroup(251, 239, 190);
    OneGroup(255, 255, 255);
    OneGroup(0, 0, 0);
    assert [102, 111, 111, 98, 97, 114][3..] == [98, 97, 114];
    assert "Zm9v" + "YmFy" == "Zm9vYmFy";
  }

  lemma ShortEncodings()
    ensures Encode([102]) == "Zg==" && Encode([102, 111]) == "Zm8="
  {}

  lemma GroupSymbols()
    ensures Group(102, 111, 111) == "Zm9v" && Group(98, 97, 114) == "YmFy"
  {
    SomeSextets();
    hide Sextet1, Sextet2, Sextet3, Sextet4;
    assert Symbol(25) == 'Z' && Symbol(38) == 'm' && Symbol(61) == '9' && Symbol(47) == 'v';
    assert Symbol(24) == 'Y' && Symbol(5) == 'F' && Symbol(50) == 'y';
  }

  lemma SomeSextets()
    ensures Sextet1(102) == 25 && Sextet2(102, 111) == 38 && Sextet3(111, 111) == 61 && Sextet4(111) == 47
    ensures Sextet1(98) == 24 && Sextet2(98, 97) == 38 && Sextet3(97, 114) == 5 && Sextet4(114) == 50
  {}

  lemma EdgeSymbols()
    ensures Group(251, 239, 190) == "++++" && Group(255, 255, 255) == "////" && Group(0, 0, 0) == "AAAA"
  {}

  lemma OneGroup(x: Byte, y: Byte, z: Byte)
    ensures Encode([x, y, z]) == Group(x, y, z)
  {
    hide Group;
    assert [x, y, z][3..] == [] && Encode([]) == "";
  }
}
