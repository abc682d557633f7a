/** The cartridge image (`Rom` in src/lib.rs): the file's bytes, addressed
    from 0, and the header fields derived from fixed offsets when the image
    is loaded. */
module Cartridge {
  import opened Types

  /** Header offsets. The title occupies [TitleStart, TitleEnd). */
  const TitleStart: int := 0x0134
  const TitleEnd: int := 0x0143
  const TitleLength: int := TitleEnd - TitleStart
  const CartTypeAddr: u32 := 0x0147
  const RomSizeAddr: u32 := 0x0148
  const RamSizeAddr: u32 := 0x0149

  /** Bytes per switchable ROM bank and per external RAM bank. */
  const RomBankSize: nat := 16384
  const RamBankSize: nat := 8192

  /** Why loading stops. `AddressOverflow` is the overflow of the 32-bit
      address counter on a file of 2^32 bytes or more. */
  datatype LoadError =
    | AddressOverflow
    | UnknownCartType(code: u8)
    | InvalidRomSize(code: u8)
    | InvalidRamSize(code: u8)

  /** The closed set of cartridge (mapper) families. */
  datatype CartType =
    | RomOnly | Mbc1 | Mbc1Ram | Mbc1RamBattery | Mbc2 | Mbc2Battery
    | RomRam | RomRamBattery | Mmm01 | Mmm01Ram | Mmm01RamBattery
    | Mbc3TimerBattery | Mbc3TimerRamBattery | Mbc3 | Mbc3Ram | Mbc3RamBattery
    | Mbc5 | Mbc5Ram | Mbc5RamBattery | Mbc5Rumble | Mbc5RumbleRam | Mbc5RumbleRamBattery
    | Mbc6 | Mbc7SensorRumbleRamBattery | PocketCamera | BandaiTama5 | HuC3 | HuC1RamBattery

  /** Every header code that names a cartridge type. */
  const CartTypeCodes: set<u8> := {
    0x00, 0x01, 0x02, 0x03, 0x05, 0x06, 0x08, 0x09, 0x0B, 0x0C, 0x0D,
    0x0F, 0x10, 0x11, 0x12, 0x13, 0x19, 0x1A, 0x1B, 0x1C, 0x1D, 0x1E,
    0x20, 0x22, 0xFC, 0xFD, 0xFE, 0xFF }

  /** Every header code that names a RAM size. */
  const RamSizeCodes: set<u8> := {0x00, 0x02, 0x03, 0x04, 0x05}

  /** Total size in bytes and number of banks of a memory. */
  datatype Geometry = Geometry(size: u32, banks: u32)

  /** A loaded cartridge. `data` is the file; the other fields are decoded
      from its header. */
  datatype Rom = Rom(
    data: seq<u8>,
    title: seq<char>,
    cartType: CartType,
    romSize: u32,
    romBanks: u32,
    ramSize: u32,
    ramBanks: u32)
  {
    /** The lenient read: the file's byte at `addr`, 0 past its end. */
    function GetValue(addr: u32): (v: u8)
      ensures addr < |data| ==> v == data[addr]
      ensures |data| <= addr ==> v == 0
    {
      ByteAt(data, addr)
    }

    /** What every successfully loaded cartridge satisfies. */
    predicate WellFormed() {
      && |data| < 0x1_0000_0000
      && |title| <= TitleLength
      && (forall k :: 0 <= k < |title| ==> title[k] != '\0')
      && romSize == romBanks * RomBankSize
      && ramSize == ramBanks * RamBankSize
    }
  }

  /** The byte at `addr` of an image, 0 when the image has no such byte. */
  function ByteAt(image: seq<u8>, addr: int): u8 {
    if 0 <= addr < |image| then image[addr] else 0
  }

  /** A byte lookup in the address-to-byte map, 0 for an absent address. */
  function MapGet(data: map<u32, u8>, addr: u32): u8 {
    if addr in data then data[addr] else 0
  }

  /** The map holds exactly the image's bytes at their positions. */
  ghost predicate Indexes(data: map<u32, u8>, image: seq<u8>) {
    forall addr: u32 ::
      (addr in data <==> addr < |image|) && (addr in data ==> data[addr] == image[addr])
  }

  // ---------------------------------------------------------------- title

  /** The title character contributed by address `addr`: none when the
      byte is absent or NUL. */
  function TitleChar(image: seq<u8>, addr: int): seq<char> {
    if 0 <= addr < |image| then ByteChar(image[addr]) else []
  }

  /** The title characters contributed by addresses [TitleStart, end). */
  function TitleUpTo(image: seq<u8>, end: int): (t: seq<char>)
    requires TitleStart <= end <= TitleEnd
    ensures |t| <= end - TitleStart
    ensures forall k :: 0 <= k < |t| ==> t[k] != '\0'
    decreases end
  {
    if end == TitleStart then [] else TitleUpTo(image, end - 1) + TitleChar(image, end - 1)
  }

  /** The cartridge title. */
  function Title(image: seq<u8>): (t: seq<char>)
    ensures |t| <= TitleLength
    ensures forall k :: 0 <= k < |t| ==> t[k] != '\0'
  {
    TitleUpTo(image, TitleEnd)
  }

  /** Reference definition: the characters of the non-NUL bytes of `s`,
      in order. */
  function NonZeroChars(s: seq<u8>): seq<char> {
    if s == [] then [] else NonZeroChars(s[..|s| - 1]) + ByteChar(s[|s| - 1])
  }

  /** The character of a byte, or nothing for NUL. */
  function ByteChar(x: u8): seq<char> {
    if x != 0 then [x as char] else []
  }

  /** The part of the title field [TitleStart, end) that the image holds. */
  function FieldUpTo(image: seq<u8>, end: int): seq<u8>
    requires TitleStart <= end
  {
    var lo := if |image| < TitleStart then |image| else TitleStart;
    var hi := if |image| < end then |image| else end;
    image[lo..hi]
  }

  /** The title is the non-NUL bytes of the part of the title field the
      file holds, in order: NULs are skipped, not a terminator, and
      addresses past the end of the file contribute nothing. */
  lemma {:induction false} TitleUpToIsFilteredField(image: seq<u8>, end: int)
    requires TitleStart <= end <= TitleEnd
    ensures TitleUpTo(image, end) == NonZeroChars(FieldUpTo(image, end))
    decreases end
  {
    if end > TitleStart {
      TitleUpToIsFilteredField(image, end - 1);
      var prev := FieldUpTo(image, end - 1);
      var cur := FieldUpTo(image, end);
      assert TitleUpTo(image, end) == NonZeroChars(prev) + TitleChar(image, end - 1);
      if end - 1 < |image| {
        assert cur == prev + [image[end - 1]];
        assert cur[..|cur| - 1] == prev;
        NonZeroCharsPrefix(cur, |cur|);
      } else {
        assert cur == prev;
      }
    }
  }

  lemma TitleIsFilteredField(image: seq<u8>)
    ensures Title(image) == NonZeroChars(FieldUpTo(image, TitleEnd))
  {
    TitleUpToIsFilteredField(image, TitleEnd);
  }

  /** Filtering a sequence without NUL keeps every byte. */
  lemma {:induction false} NonZeroCharsOfNoNul(s: seq<u8>)
    requires forall k :: 0 <= k < |s| ==> s[k] != 0
    ensures NonZeroChars(s) == seq(|s|, k requires 0 <= k < |s| => s[k] as char)
  {
    if s != [] {
      NonZeroCharsOfNoNul(s[..|s| - 1]);
    }
  }

  /** A full title field without NUL is the title, character for character. */
  lemma FullTitle(image: seq<u8>)
    requires TitleEnd <= |image|
    requires forall addr :: TitleStart <= addr < TitleEnd ==> image[addr] != 0
    ensures Title(image) == seq(TitleLength, k requires 0 <= k < TitleLength => image[TitleStart + k] as char)
  {
    TitleIsFilteredField(image);
    var field := FieldUpTo(image, TitleEnd);
    assert forall k :: 0 <= k < |field| ==> field[k] == image[TitleStart + k];
    NonZeroCharsOfNoNul(field);
  }

  /** A file that ends before the title field has an empty title. */
  lemma ShortImageHasEmptyTitle(image: seq<u8>)
    requires |image| <= TitleStart
    ensures Title(image) == []
  {
    TitleIsFilteredField(image);
  }

  /** The title depends on the bytes of the title field and on nothing else. */
  lemma {:induction false} TitleUpToDependsOnFieldOnly(x: seq<u8>, y: seq<u8>, end: int)
    requires TitleStart <= end <= TitleEnd
    requires forall addr :: TitleStart <= addr < end ==> ByteAt(x, addr) == ByteAt(y, addr)
    ensures TitleUpTo(x, end) == TitleUpTo(y, end)
    decreases end
  {
    if end > TitleStart {
      TitleUpToDependsOnFieldOnly(x, y, end - 1);
      assert ByteAt(x, end - 1) == ByteAt(y, end - 1);
    }
  }

  /** Filtering distributes over concatenation. */
  lemma {:induction false} NonZeroCharsAppend(s: seq<u8>, t: seq<u8>)
    ensures NonZeroChars(s + t) == NonZeroChars(s) + NonZeroChars(t)
    decreases |t|
  {
    if t == [] {
      assert s + t == s;
    } else {
      var u := t[..|t| - 1];
      NonZeroCharsAppend(s, u);
      assert (s + t)[..|s + t| - 1] == s + u;
      assert (s + t)[|s + t| - 1] == t[|t| - 1];
    }
  }

  /** Filtering a prefix one byte longer adds that byte's character. */
  lemma NonZeroCharsPrefix(s: seq<u8>, n: int)
    requires 0 < n <= |s|
    ensures NonZeroChars(s[..n]) == NonZeroChars(s[..n - 1]) + ByteChar(s[n - 1])
  {
    assert s[..n][..n - 1] == s[..n - 1];
  }

  /** Trailing NUL bytes contribute nothing. */
  lemma NonZeroCharsZeroTail(s: seq<u8>, n: int)
    requires 0 <= n <= |s|
    requires forall k :: n <= k < |s| ==> s[k] == 0
    ensures NonZeroChars(s) == NonZeroChars(s[..n])
  {
    assert s == s[..n] + s[n..];
    NonZeroCharsAppend(s[..n], s[n..]);
    NonZeroCharsOfZeros(s[n..]);
  }

  /** A run of NUL bytes contributes nothing. */
  lemma {:induction false} NonZeroCharsOfZeros(s: seq<u8>)
    requires forall k :: 0 <= k < |s| ==> s[k] == 0
    ensures NonZeroChars(s) == []
  {
    if s != [] {
      NonZeroCharsOfZeros(s[..|s| - 1]);
    }
  }

  /** A NUL inside the title field is skipped: "AB", NUL, "CD" reads "ABCD". */
  lemma TitleSkipsNul(image: seq<u8>)
    requires TitleEnd <= |image|
    requires image[TitleStart..TitleEnd] == [0x41, 0x42, 0x00, 0x43, 0x44, 0, 0, 0, 0, 0, 0, 0, 0, 0, 0]
    ensures Title(image) == "ABCD"
  {
    TitleIsFilteredField(image);
    var field := FieldUpTo(image, TitleEnd);
    assert field == image[TitleStart..TitleEnd];
    NonZeroCharsZeroTail(field, 5);
    var ab: seq<u8>, cd: seq<u8> := [0x41, 0x42], [0x43, 0x44];
    assert field[..5] == (ab + [0x00]) + cd;
    NonZeroCharsAppend(ab + [0x00], cd);
    NonZeroCharsAppend(ab, [0x00]);
    NonZeroCharsOfZeros([0x00]);
    NonZeroCharsOfNoNul(ab);
    NonZeroCharsOfNoNul(cd);
    assert seq(2, k requires 0 <= k < 2 => ab[k] as char) == "AB";
    assert seq(2, k requires 0 <= k < 2 => cd[k] as char) == "CD";
  }

  // --------------------------------------------------------- header tables

  /** The cartridge-type table. */
  function CartTypeOf(code: u8): (r: Result<CartType, LoadError>)
    ensures r.Ok? <==> code in CartTypeCodes
    ensures r.Ok? ==> CartTypeCode(r.value) == code
    ensures r.Err? ==> r.error == UnknownCartType(code)
  {
    match code
    case 0x00 => Ok(RomOnly)
    case 0x01 => Ok(Mbc1)
    case 0x02 => Ok(Mbc1Ram)
    case 0x03 => Ok(Mbc1RamBattery)
    case 0x05 => Ok(Mbc2)
    case 0x06 => Ok(Mbc2Battery)
    case 0x08 => Ok(RomRam)
    case 0x09 => Ok(RomRamBattery)
    case 0x0B => Ok(Mmm01)
    case 0x0C => Ok(Mmm01Ram)
    case 0x0D => Ok(Mmm01RamBattery)
    case 0x0F => Ok(Mbc3TimerBattery)
    case 0x10 => Ok(Mbc3TimerRamBattery)
    case 0x11 => Ok(Mbc3)
    case 0x12 => Ok(Mbc3Ram)
    case 0x13 => Ok(Mbc3RamBattery)
    case 0x19 => Ok(Mbc5)
    case 0x1A => Ok(Mbc5Ram)
    case 0x1B => Ok(Mbc5RamBattery)
    case 0x1C => Ok(Mbc5Rumble)
    case 0x1D => Ok(Mbc5RumbleRam)
    case 0x1E => Ok(Mbc5RumbleRamBattery)
    case 0x20 => Ok(Mbc6)
    case 0x22 => Ok(Mbc7SensorRumbleRamBattery)
    case 0xFC => Ok(PocketCamera)
    case 0xFD => Ok(BandaiTama5)
    case 0xFE => Ok(HuC3)
    case 0xFF => Ok(HuC1RamBattery)
    case _ => Err(UnknownCartType(code))
  }

  /** The header code of each cartridge type: the inverse of the table. */
  function CartTypeCode(t: CartType): u8 {
    match t
    case RomOnly => 0x00
    case Mbc1 => 0x01
    case Mbc1Ram => 0x02
    case Mbc1RamBattery => 0x03
    case Mbc2 => 0x05
    case Mbc2Battery => 0x06
    case RomRam => 0x08
    case RomRamBattery => 0x09
    case Mmm01 => 0x0B
    case Mmm01Ram => 0x0C
    case Mmm01RamBattery => 0x0D
    case Mbc3TimerBattery => 0x0F
    case Mbc3TimerRamBattery => 0x10
    case Mbc3 => 0x11
    case Mbc3Ram => 0x12
    case Mbc3RamBattery => 0x13
    case Mbc5 => 0x19
    case Mbc5Ram => 0x1A
    case Mbc5RamBattery => 0x1B
    case Mbc5Rumble => 0x1C
    case Mbc5RumbleRam => 0x1D
    case Mbc5RumbleRamBattery => 0x1E
    case Mbc6 => 0x20
    case Mbc7SensorRumbleRamBattery => 0x22
    case PocketCamera => 0xFC
    case BandaiTama5 => 0xFD
    case HuC3 => 0xFE
    case HuC1RamBattery => 0xFF
  }

  /** Every cartridge type has a code, and the table decodes it back:
      together with the contract of CartTypeOf, the table is a bijection
      between CartTypeCodes and CartType. */
  lemma CartTypeRoundTrip(t: CartType)
    ensures CartTypeCode(t) in CartTypeCodes
    ensures CartTypeOf(CartTypeCode(t)) == Ok(t)
  {
  }

  function Pow2(n: nat): (p: nat)
    ensures p >= 1
  {
    if n == 0 then 1 else 2 * Pow2(n - 1)
  }

  /** The ROM-size table: code c in 0..8 gives 32 KiB << c in 2 << c banks
      of 16 KiB. */
  function RomSizeOf(code: u8): (r: Result<Geometry, LoadError>)
    ensures r.Ok? <==> code <= 0x08
    ensures r.Ok? ==> r.value.size == 32768 * Pow2(code) && r.value.banks == 2 * Pow2(code)
    ensures r.Ok? ==> r.value.size == r.value.banks * RomBankSize
    ensures r.Err? ==> r.error == InvalidRomSize(code)
  {
    match code
    case 0x00 => Ok(Geometry(32768, 2))
    case 0x01 => Ok(Geometry(65536, 4))
    case 0x02 => Ok(Geometry(131072, 8))
    case 0x03 => Ok(Geometry(262144, 16))
    case 0x04 => Ok(Geometry(524288, 32))
    case 0x05 => Ok(Geometry(1048576, 64))
    case 0x06 => Ok(Geometry(2097152, 128))
    case 0x07 => Ok(Geometry(4194304, 256))
    case 0x08 => Ok(Geometry(8388608, 512))
    case _ => Err(InvalidRomSize(code))
  }

  /** The RAM-size table: code 0 means no RAM; codes 2, 3 and 4 give 1, 4
      and 16 banks of 8 KiB; code 5 gives 8 banks, fewer than code 4; code
      1 and codes above 5 are invalid. */
  function RamSizeOf(code: u8): (r: Result<Geometry, LoadError>)
    ensures r.Ok? <==> code in RamSizeCodes
    ensures r.Ok? ==> r.value.size == r.value.banks * RamBankSize
    ensures r.Ok? ==> r.value.banks == (if code == 0x00 then 0 else if code == 0x05 then 8 else Pow2(2 * (code - 2)))
    ensures r.Err? ==> r.error == InvalidRamSize(code)
  {
    match code
    case 0x00 => Ok(Geometry(0, 0))
    case 0x02 => Ok(Geometry(8192, 1))
    case 0x03 => Ok(Geometry(32768, 4))
    case 0x04 => Ok(Geometry(131072, 16))
    case 0x05 => Ok(Geometry(65536, 8))
    case _ => Err(InvalidRamSize(code))
  }

  /** Distinct valid RAM-size codes describe distinct RAM sizes. */
  lemma RamSizeInjective(c1: u8, c2: u8)
    requires RamSizeOf(c1).Ok? && RamSizeOf(c2).Ok? && c1 != c2
    ensures RamSizeOf(c1).value.size != RamSizeOf(c2).value.size
  {
  }

  // -------------------------------------------------------------- loading

  /** What loading an image yields: the checks run in the order
      cartridge type, ROM size, RAM size, and the first that fails
      decides the error. A missing header byte reads as 0. */
  function Decode(image: seq<u8>): (r: Result<Rom, LoadError>)
    ensures r.Ok? ==> r.value.WellFormed() && r.value.data == image
  {
    if |image| >= 0x1_0000_0000 then Err(AddressOverflow)
    else
      var cart :- CartTypeOf(ByteAt(image, CartTypeAddr));
      var rom :- RomSizeOf(ByteAt(image, RomSizeAddr));
      var ram :- RamSizeOf(ByteAt(image, RamSizeAddr));
      Ok(Rom(image, Title(image), cart, rom.size, rom.banks, ram.size, ram.banks))
  }

  /** Loading succeeds exactly when the file fits the 32-bit address
      counter and all three header codes are in their tables. */
  lemma DecodeSucceedsIff(image: seq<u8>)
    ensures Decode(image).Ok? <==>
      && |image| < 0x1_0000_0000
      && ByteAt(image, CartTypeAddr) in CartTypeCodes
      && ByteAt(image, RomSizeAddr) <= 0x08
      && ByteAt(image, RamSizeAddr) in RamSizeCodes
  {
  }

  /** Which error a failing load reports. */
  lemma DecodeError(image: seq<u8>)
    requires |image| < 0x1_0000_0000
    ensures ByteAt(image, CartTypeAddr) !in CartTypeCodes ==>
      Decode(image) == Err(UnknownCartType(ByteAt(image, CartTypeAddr)))
    ensures ByteAt(image, CartTypeAddr) in CartTypeCodes && ByteAt(image, RomSizeAddr) > 0x08 ==>
      Decode(image) == Err(InvalidRomSize(ByteAt(image, RomSizeAddr)))
    ensures ByteAt(image, CartTypeAddr) in CartTypeCodes && ByteAt(image, RomSizeAddr) <= 0x08
            && ByteAt(image, RamSizeAddr) !in RamSizeCodes ==>
      Decode(image) == Err(InvalidRamSize(ByteAt(image, RamSizeAddr)))
  {
  }

  /** A successful load keeps the header codes: the cartridge type encodes
      back to the byte at 0x0147 and the sizes are those of the tables. */
  lemma DecodeFields(image: seq<u8>)
    requires Decode(image).Ok?
    ensures Decode(image).value.title == Title(image)
    ensures CartTypeCode(Decode(image).value.cartType) == ByteAt(image, CartTypeAddr)
    ensures Decode(image).value.romBanks == 2 * Pow2(ByteAt(image, RomSizeAddr))
    ensures Geometry(Decode(image).value.ramSize, Decode(image).value.ramBanks)
            == RamSizeOf(ByteAt(image, RamSizeAddr)).value
  {
  }

  /** A file too short to hold the header codes loads as a ROM-only
      cartridge of 32 KiB in two banks, without RAM. */
  lemma ShortImageDefaults(image: seq<u8>)
    requires |image| <= CartTypeAddr
    ensures Decode(image) == Ok(Rom(image, Title(image), RomOnly, 32768, 2, 0, 0))
  {
  }

  /** An unknown cartridge-type byte such as 0xEE fails the load with that code. */
  lemma UnknownCartTypeFails(image: seq<u8>)
    requires |image| < 0x1_0000_0000 && ByteAt(image, CartTypeAddr) == 0xEE
    ensures Decode(image) == Err(UnknownCartType(0xEE))
  {
  }

  /** A 32 KiB image holding "TETRIS" padded with NULs as its title and
      0x00 as its cartridge-type, ROM-size and RAM-size bytes loads as a
      ROM-only cartridge titled "TETRIS" with two ROM banks and no RAM. */
  lemma TetrisHeader(image: seq<u8>)
    requires |image| == 0x8000
    requires image[TitleStart..TitleEnd] == [84, 69, 84, 82, 73, 83, 0, 0, 0, 0, 0, 0, 0, 0, 0]
    requires image[CartTypeAddr] == 0x00 && image[RomSizeAddr] == 0x00 && image[RamSizeAddr] == 0x00
    ensures Decode(image) == Ok(Rom(image, "TETRIS", RomOnly, 32768, 2, 0, 0))
  {
    TetrisTitle(image);
  }

  lemma TetrisTitle(image: seq<u8>)
    requires TitleEnd <= |image|
    requires image[TitleStart..TitleEnd] == [84, 69, 84, 82, 73, 83, 0, 0, 0, 0, 0, 0, 0, 0, 0]
    ensures Title(image) == "TETRIS"
  {
    TitleIsFilteredField(image);
    var field := FieldUpTo(image, TitleEnd);
    assert field == image[TitleStart..TitleEnd];
    NonZeroCharsZeroTail(field, 6);
    var name := field[..6];
    assert name == [84, 69, 84, 82, 73, 83];
    NonZeroCharsOfNoNul(name);
    assert seq(6, k requires 0 <= k < 6 => name[k] as char) == "TETRIS";
  }

  /** The map the loader builds while reading the file: each byte is stored
      at the running address, which is a 32-bit counter. */
  method Index(file: seq<u8>) returns (r: Result<map<u32, u8>, LoadError>)
    ensures r.Ok? <==> |file| < 0x1_0000_0000
    ensures r.Ok? ==> Indexes(r.value, file)
    ensures r.Ok? ==> forall addr: u32 :: MapGet(r.value, addr) == ByteAt(file, addr)
    ensures r.Err? ==> r.error == AddressOverflow
  {
    var data: map<u32, u8> := map[];
    var addr: u32 := 0;
    for i := 0 to |file|
      invariant addr == i
      invariant forall a: u32 :: (a in data <==> a < i) && (a in data ==> data[a] == file[a])
    {
      data := data[addr := file[i]];
      if addr == 0xFFFF_FFFF {
        return Err(AddressOverflow);
      }
      addr := addr + 1;
    }
    r := Ok(data);
  }

  /** The title loop: for each title address, copy the byte as a character
      unless it is absent or NUL. */
  method ReadTitle(data: map<u32, u8>, ghost image: seq<u8>) returns (title: seq<char>)
    requires Indexes(data, image)
    ensures title == Title(image)
  {
    title := [];
    for i: u32 := TitleStart to TitleEnd
      invariant title == TitleUpTo(image, i)
    {
      if i in data {
        var byte := data[i];
        if byte != 0x00 {
          title := title + [byte as char];
        }
      }
    }
  }

  /** Loading a cartridge from the bytes of its file. */
  method Load(file: seq<u8>) returns (r: Result<Rom, LoadError>)
    ensures r == Decode(file)
  {
    var data :- Index(file);
    var title := ReadTitle(data, file);
    var cart :- CartTypeOf(MapGet(data, CartTypeAddr));
    var rom :- RomSizeOf(MapGet(data, RomSizeAddr));
    var ram :- RamSizeOf(MapGet(data, RamSizeAddr));
    r := Ok(Rom(file, title, cart, rom.size, rom.banks, ram.size, ram.banks));
  }
}
