/** Pointers as text: the hexadecimal packing of the wrapper runtime.  Texts are
    NUL-terminated, and the decoder finds the end of its input by rejecting the NUL. */
module Packing {
  import opened Words

  type Byte = x: nat | x < 256
  const NUL: char := '\0'

  // ------------------------------------------------------------------- digits

  function Digit(n: Byte): char
    requires n < 16
  {
    "0123456789abcdef"[n]
  }

  /** The value of a digit, as the decoder computes it. */
  function Nibble(d: char): (r: Option<Byte>)
    ensures r.Some? ==> r.value < 16
  {
    if '0' <= d <= '9' then Some(d as int - '0' as int)
    else if 'a' <= d <= 'f' then Some(d as int - 'a' as int + 10)
    else None
  }

  /** The upper four bits, shifted down. */
  function High(u: Byte): (r: Byte)
    ensures r < 16
  {
    u / 16
  }

  /** The lower four bits. */
  function Low(u: Byte): (r: Byte)
    ensures r < 16
  {
    u % 16
  }

  function Join(high: Byte, low: Byte): Byte
    requires high < 16 && low < 16
  {
    16 * high + low
  }

  lemma JoinSplits(high: Byte, low: Byte)
    requires high < 16 && low < 16
    ensures Join(high, low) < 256 && High(Join(high, low)) == high && Low(Join(high, low)) == low
  {
  }

  lemma SplitJoins(u: Byte)
    ensures Join(High(u), Low(u)) == u
  {
  }

  lemma NibbleOfDigit(n: Byte)
    requires n < 16
    ensures Nibble(Digit(n)) == Some(n)
  {
  }

  lemma DigitOfNibble(d: char)
    requires Nibble(d).Some?
    ensures Digit(Nibble(d).value) == d
  {
    var n := Nibble(d).value;
    if '0' <= d <= '9' {
      assert n == d as int - '0' as int;
      assert "0123456789abcdef"[n] == ('0' as int + n) as char;
    } else {
      assert n == d as int - 'a' as int + 10;
      assert "0123456789abcdef"[n] == ('a' as int + n - 10) as char;
    }
  }

  lemma JoinDigits(a: char, b: char)
    requires Nibble(a).Some? && Nibble(b).Some?
    ensures var u := Join(Nibble(a).value, Nibble(b).value); Digit(High(u)) == a && Digit(Low(u)) == b
  {
    JoinSplits(Nibble(a).value, Nibble(b).value);
    DigitOfNibble(a);
    DigitOfNibble(b);
    hide Join, High, Low, Digit, Nibble;
  }

  // --------------------------------------------------------------------- text

  /** The packed form of a byte string. */
  function Hex(bytes: seq<Byte>): (r: seq<char>)
    ensures |r| == 2 * |bytes|
  {
    if bytes == [] then []
    else Hex(bytes[..|bytes| - 1]) + [Digit(High(bytes[|bytes| - 1])), Digit(Low(bytes[|bytes| - 1]))]
  }

  lemma HexAppend(done: seq<Byte>, u: Byte)
    ensures Hex(done + [u]) == Hex(done) + [Digit(High(u)), Digit(Low(u))]
  {
    assert (done + [u])[..|done|] == done;
  }

  /** Every prefix of the text is the packed form of a prefix. */
  lemma {:induction false} HexPrefix(bytes: seq<Byte>, k: nat)
    requires k <= |bytes|
    ensures Hex(bytes)[..2 * k] == Hex(bytes[..k])
  {
    if k < |bytes| {
      var init := bytes[..|bytes| - 1];
      HexPrefix(init, k);
      assert init[..k] == bytes[..k];
    } else {
      assert bytes[..k] == bytes;
    }
  }

  /** Different byte strings have different packed forms. */
  lemma {:induction false} HexInjective(a: seq<Byte>, b: seq<Byte>)
    requires Hex(a) == Hex(b)
    ensures a == b
  {
    assert |a| == |b|;
    if a != [] {
      var n := |a| - 1;
      HexPrefix(a, n);
      HexPrefix(b, n);
      HexInjective(a[..n], b[..n]);
      LastByte(a);
      LastByte(b);
      assert a == a[..n] + [a[n]] && b == b[..n] + [b[n]];
    }
  }

  lemma LastByte(a: seq<Byte>)
    requires a != []
    ensures var n := |a| - 1;
      && Nibble(Hex(a)[2 * n]).Some? && Nibble(Hex(a)[2 * n + 1]).Some?
      && a[n] == Join(Nibble(Hex(a)[2 * n]).value, Nibble(Hex(a)[2 * n + 1]).value)
  {
    var u := a[|a| - 1];
    NibbleOfDigit(High(u));
    NibbleOfDigit(Low(u));
    SplitJoins(u);
  }

  /** The characters that byte number `k` becomes: its upper four bits first, each as a decimal
      digit or as a letter from `a` on. */
  lemma HexCharacters(bytes: seq<Byte>, k: nat)
    requires k < |bytes|
    ensures var high, low := bytes[k] / 16, bytes[k] % 16;
      && Hex(bytes)[2 * k] as int == (if high < 10 then '0' as int + high else 'a' as int + high - 10)
      && Hex(bytes)[2 * k + 1] as int == (if low < 10 then '0' as int + low else 'a' as int + low - 10)
  {
    HexPrefix(bytes, k + 1);
    var prefix := Hex(bytes)[..2 * k + 2];
    assert prefix == Hex(bytes[..k + 1]);
    assert prefix[2 * k] == Hex(bytes)[2 * k] && prefix[2 * k + 1] == Hex(bytes)[2 * k + 1];
    DigitIs(High(bytes[k]));
    DigitIs(Low(bytes[k]));
    hide Digit;
  }

  lemma DigitIs(n: Byte)
    requires n < 16
    ensures Digit(n) as int == if n < 10 then '0' as int + n else 'a' as int + n - 10
  {
  }

  // ------------------------------------------------------------------ methods

  /** SWIG_PackData: writes two digits for each byte. */
  method PackData(buffer: array<char>, c: nat, bytes: seq<Byte>) returns (end: nat)
    requires c + 2 * |bytes| <= buffer.Length
    modifies buffer
    ensures end == c + 2 * |bytes|
    ensures buffer[..] == old(buffer[..c]) + Hex(bytes) + old(buffer[end..])
  {
    hide Hex, Digit, High, Low;
    assert Hex(bytes[..0]) == [];
    end := c;
    for i := 0 to |bytes|
      invariant end == c + 2 * i
      invariant buffer[..end] == old(buffer[..c]) + Hex(bytes[..i])
      invariant buffer[end..] == old(buffer[..])[end..]
    {
      var u := bytes[i];
      HexAppend(bytes[..i], bytes[i]);
      assert bytes[..i + 1] == bytes[..i] + [bytes[i]];
      ghost var done, rest := buffer[..end], buffer[end..];
      buffer[end] := Digit(High(u));
      buffer[end + 1] := Digit(Low(u));
      assert buffer[..end + 2] == done + [Digit(High(u)), Digit(Low(u))];
      assert buffer[end + 2..] == rest[2..];
      end := end + 2;
    }
    assert bytes[..|bytes|] == bytes;
    assert buffer[..] == buffer[..end] + buffer[end..];
  }

  /** A text ends with a NUL. */
  ghost predicate Terminated(text: seq<char>, c: nat) {
    exists e: nat | c <= e < |text| :: text[e] == NUL
  }

  /** The text at `c` is the packed form of some `n` bytes. */
  ghost predicate Packed(text: seq<char>, c: nat, n: nat) {
    c + 2 * n <= |text| && exists bytes: seq<Byte> :: Hex(bytes) == text[c..c + 2 * n]
  }

  lemma IsPacked(text: seq<char>, c: nat, bytes: seq<Byte>)
    requires c + 2 * |bytes| <= |text| && Hex(bytes) == text[c..c + 2 * |bytes|]
    ensures Packed(text, c, |bytes|)
  {
  }

  lemma NulIsNoDigit()
    ensures Nibble(NUL) == None
  {
  }

  lemma ByteAt(bytes: seq<Byte>, k: nat)
    requires k < |bytes|
    ensures Nibble(Hex(bytes)[2 * k]).Some? && Nibble(Hex(bytes)[2 * k + 1]).Some?
  {
    hide Nibble, Hex;
    HexPrefix(bytes, k + 1);
    LastByte(bytes[..k + 1]);
    var prefix := Hex(bytes)[..2 * k + 2];
    assert prefix[2 * k] == Hex(bytes)[2 * k] && prefix[2 * k + 1] == Hex(bytes)[2 * k + 1];
  }

  lemma PackedStep(text: seq<char>, c: nat, d: nat, k: nat, n: nat)
    requires d == c + 2 * k && k < n && Packed(text, c, n)
    ensures d + 1 < |text| && Nibble(text[d]).Some? && Nibble(text[d + 1]).Some?
  {
    hide Nibble, Hex;
    var bytes: seq<Byte> :| Hex(bytes) == text[c..c + 2 * n];
    ByteAt(bytes, k);
    assert text[c..c + 2 * n][2 * k] == text[d] && text[c..c + 2 * n][2 * k + 1] == text[d + 1];
  }

  lemma TwoMore(text: seq<char>, c: nat, d: nat)
    requires c <= d && d + 1 < |text|
    ensures text[c..d + 2] == text[c..d] + [text[d], text[d + 1]]
  {
  }

  lemma Extend(text: seq<char>, c: nat, d: nat, done: seq<Byte>)
    requires d == c + 2 * |done| && d + 1 < |text| && Hex(done) == text[c..d]
    requires Nibble(text[d]).Some? && Nibble(text[d + 1]).Some?
    ensures Hex(done + [Join(Nibble(text[d]).value, Nibble(text[d + 1]).value)]) == text[c..d + 2]
  {
    hide *;
    JoinDigits(text[d], text[d + 1]);
    HexAppend(done, Join(Nibble(text[d]).value, Nibble(text[d + 1]).value));
    TwoMore(text, c, d);
  }

  /** The text is not a packed form from the byte after `done` on. */
  ghost predicate StopsAfter(text: seq<char>, c: nat, done: seq<Byte>) {
    && c + 2 * |done| <= |text| && Hex(done) == text[c..c + 2 * |done|]
    && !Packed(text, c, |done| + 1)
  }

  /** SWIG_UnpackData: succeeds exactly on packed forms, and then gives back the bytes. */
  method UnpackData(text: seq<char>, c: nat, u: array<Byte>) returns (end: Option<nat>)
    requires Terminated(text, c)
    modifies u
    ensures end.Some? <==> Packed(text, c, u.Length)
    ensures end.Some? ==> end.value == c + 2 * u.Length && end.value < |text|
    ensures end.Some? ==> Hex(u[..]) == text[c..end.value] && Terminated(text, end.value)
    ensures end.None? ==> exists k: nat | k < u.Length :: u[k..] == old(u[k..]) && StopsAfter(text, c, u[..k])
  {
    hide Nibble, Join, Hex, Packed;
    var d := c;
    ghost var e: nat :| c <= e < |text| && text[e] == NUL;
    for i := 0 to u.Length
      invariant d == c + 2 * i && d <= e
      invariant Hex(u[..i]) == text[c..d]
      invariant u[i..] == old(u[i..])
    {
      NulIsNoDigit();
      var high, low := Nibble(text[d]), None;
      if high.Some? {
        low := Nibble(text[d + 1]);
      }
      if high == None || low == None {
        if Packed(text, c, u.Length) {
          PackedStep(text, c, d, i, u.Length);
        }
        if Packed(text, c, i + 1) {
          PackedStep(text, c, d, i, i + 1);
        }
        assert StopsAfter(text, c, u[..i]);
        return None;
      }
      assert d != e && d + 1 != e;
      Extend(text, c, d, u[..i]);
      ghost var done, rest := u[..i], u[i..];
      u[i] := Join(high.value, low.value);
      assert u[..i + 1] == done + [u[i]];
      assert u[i + 1..] == rest[1..];
      d := d + 2;
    }
    assert u[..u.Length] == u[..];
    IsPacked(text, c, u[..]);
    return Some(d);
  }

  // ----------------------------------------------------------------- pointers

  /** Copies a name and its NUL, as strcpy does. */
  method CopyName(buffer: array<char>, r: nat, name: seq<char>)
    requires r + |name| + 1 <= buffer.Length
    modifies buffer
    ensures buffer[..] == old(buffer[..r]) + name + [NUL] + old(buffer[r + |name| + 1..])
  {
    for i := 0 to |name|
      invariant buffer[..r + i] == old(buffer[..r]) + name[..i]
      invariant buffer[r + i..] == old(buffer[..])[r + i..]
    {
      ghost var done := buffer[..r + i];
      buffer[r + i] := name[i];
      assert buffer[..r + i + 1] == done + [name[i]];
    }
    buffer[r + |name|] := NUL;
    assert buffer[..] == buffer[..r + |name|] + [NUL] + buffer[r + |name| + 1..];
  }

  /** What a packed pointer looks like in memory. */
  function PointerText(ptr: seq<Byte>, name: seq<char>): (r: seq<char>)
    ensures |r| == 2 * |ptr| + 2 + |name|
  {
    "_" + Hex(ptr) + name + [NUL]
  }

  /** SWIG_PackVoidPtr: succeeds exactly when everything fits, and never writes past `bsz`. */
  method PackVoidPtr(buffer: array<char>, ptr: seq<Byte>, name: seq<char>, bsz: nat) returns (ok: bool)
    requires bsz <= buffer.Length
    modifies buffer
    ensures ok <==> 2 * |ptr| + 2 + |name| <= bsz
    ensures ok ==> buffer[..] == PointerText(ptr, name) + old(buffer[2 * |ptr| + 2 + |name|..])
    ensures buffer[bsz..] == old(buffer[bsz..])
  {
    ghost var was := buffer[..];
    if 2 * |ptr| + 2 > bsz {
      return false;
    }
    buffer[0] := '_';
    assert buffer[..1] == "_" && buffer[1..] == was[1..];
    var r := PackData(buffer, 1, ptr);
    assert buffer[..] == "_" + Hex(ptr) + was[r..];
    assert buffer[r..] == was[r..];
    assert buffer[bsz..] == was[r..][bsz - r..] == was[bsz..];
    if |name| + 1 > bsz - r {
      return false;
    }
    assert buffer[..r] == "_" + Hex(ptr);
    CopyName(buffer, r, name);
    assert buffer[..] == PointerText(ptr, name) + was[r + |name| + 1..];
    ghost var end := r + |name| + 1;
    assert buffer[bsz..] == was[end..][bsz - end..] == was[bsz..];
    return true;
  }

  /** The cursor after unpacking: into the text, or the caller's own name. */
  datatype Cursor = Fail | OwnName | Into(at: nat)

  /** The text at `c` is "NULL". */
  ghost predicate IsNull(text: seq<char>, c: nat) {
    && c + 4 < |text| && text[c + 4] == NUL
    && text[c] == 'N' && text[c + 1] == 'U' && text[c + 2] == 'L' && text[c + 3] == 'L'
  }

  /** Compares the text at `c` with "NULL", reading no further than the first difference. */
  method EqualsNull(text: seq<char>, c: nat) returns (r: bool)
    requires Terminated(text, c)
    ensures r <==> IsNull(text, c)
  {
    ghost var e: nat :| c <= e < |text| && text[e] == NUL;
    r := text[c] == 'N' && text[c + 1] == 'U' && text[c + 2] == 'L' && text[c + 3] == 'L' && text[c + 4] == NUL;
  }

  /** SWIG_UnpackVoidPtr */
  method UnpackVoidPtr(text: seq<char>, c: nat, u: array<Byte>) returns (r: Cursor)
    requires Terminated(text, c)
    modifies u
    ensures c < |text|
    ensures text[c] == '_' ==> (r.Into? <==> Packed(text, c + 1, u.Length)) && (r.Into? || r.Fail?)
    ensures r.Into? ==>
      text[c] == '_' && r.at == c + 1 + 2 * u.Length && r.at < |text| && Hex(u[..]) == text[c + 1..r.at]
    ensures text[c] != '_' ==> r == if IsNull(text, c) then OwnName else Fail
    ensures r.OwnName? ==> forall i | 0 <= i < u.Length :: u[i] == 0
    ensures text[c] != '_' && r.Fail? ==> u[..] == old(u[..])
  {
    if text[c] != '_' {
      var isNull := EqualsNull(text, c);
      if isNull {
        for i := 0 to u.Length
          invariant forall j | 0 <= j < i :: u[j] == 0
        {
          u[i] := 0;
        }
        return OwnName;
      } else {
        return Fail;
      }
    }
    var end := UnpackData(text, c + 1, u);
    return if end.Some? then Into(end.value) else Fail;
  }

  /** Where the parts of a packed pointer are in a buffer that begins with it. */
  lemma PartsOf(hex: seq<char>, name: seq<char>, text: seq<char>)
    requires "_" + hex + name + [NUL] <= text
    ensures var e := 1 + |hex|;
      && e + |name| < |text| && text[0] == '_' && text[1..e] == hex
      && text[e..e + |name|] == name && text[e + |name|] == NUL
  {
    var whole, e := "_" + hex + name + [NUL], 1 + |hex|;
    assert |whole| == e + |name| + 1 && whole[e + |name|] == NUL && whole[0] == '_';
    assert whole[1..e] == hex;
    assert whole[e..e + |name|] == name;
    assert text[..|whole|] == whole;
    assert text[1..e] == whole[1..e];
    assert text[e..e + |name|] == whole[e..e + |name|];
  }

  /** A pointer that was packed is unpacked to the same bytes, with the cursor at its type's
      name. */
  method PointerRoundTrip(buffer: array<char>, ptr: seq<Byte>, name: seq<char>, bsz: nat)
    returns (ok: bool, back: seq<Byte>, cursor: Cursor)
    requires bsz <= buffer.Length
    modifies buffer
    ensures ok <==> 2 * |ptr| + 2 + |name| <= bsz
    ensures ok ==>
      && back == ptr && cursor.Into? && cursor.at + |name| < buffer.Length
      && buffer[cursor.at..cursor.at + |name|] == name && buffer[cursor.at + |name|] == NUL
  {
    back, cursor := [], Fail;
    ok := PackVoidPtr(buffer, ptr, name, bsz);
    if ok {
      ghost var text := buffer[..];
      PartsOf(Hex(ptr), name, text);
      hide PointerText, Hex, Packed, IsNull;
      IsPacked(text, 1, ptr);
      var u := new Byte[|ptr|];
      cursor := UnpackVoidPtr(buffer[..], 0, u);
      back := u[..];
      HexInjective(back, ptr);
      ghost var e := 1 + 2 * |ptr|;
      assert buffer[..] == text;
      assert buffer[e..e + |name|] == text[e..e + |name|];
    }
  }
}
