/**
 * The product record shared by the cart, the favourites cache, checkout and
 * the admin form, and its field-ordered Parcel serialisation.
 *
 * Prices and ratings are whole numbers (prices in whole dong); `timestamp`
 * is a clock value supplied by the caller.
 */
module ItemsModel {
  import opened Wrappers

  datatype Item = Item(
    id: string,
    title: string,
    description: string,
    picUrl: seq<string>,
    model: seq<string>,
    price: int,
    rating: int,
    numberInCart: int,
    showRecommended: bool,
    categoryId: string,
    timestamp: int)

  /** The record built from default arguments only, at clock value `now`. */
  function NewItem(now: int): (r: Item)
    ensures r.id == "" && r.title == "" && r.description == "" && r.categoryId == ""
    ensures r.picUrl == [] && r.model == []
    ensures r.price == 0 && r.rating == 0 && r.numberInCart == 0 && !r.showRecommended
    ensures r.timestamp == now
  {
    Item("", "", "", [], [], 0, 0, 0, false, "", now)
  }

  /** The sort keys of the product screens. */
  function Price(it: Item): int {
    it.price
  }

  function Rating(it: Item): int {
    it.rating
  }

  /** `describeContents`: the record holds no file descriptors. */
  const DescribeContents: int := 0

  /** Number of parcel entries one record occupies. */
  const FieldCount: nat := 11

  /**
   * One value written to a Parcel. The byte layout is abstracted away: each
   * write appends one typed entry. A null string or a null string list is
   * representable, as Parcel allows.
   */
  datatype Entry =
    | StrEntry(str: Option<string>)
    | StrListEntry(strs: Option<seq<string>>)
    | DoubleEntry(dbl: int)
    | IntEntry(i32: int)
    | ByteEntry(byte: int)
    | LongEntry(i64: int)

  /** The entries `writeToParcel` appends, in write order. */
  function Encode(it: Item): (r: seq<Entry>)
    ensures |r| == FieldCount
  {
    [ StrEntry(Some(it.id)), StrEntry(Some(it.title)), StrEntry(Some(it.description)),
      StrListEntry(Some(it.picUrl)), StrListEntry(Some(it.model)),
      DoubleEntry(it.price), DoubleEntry(it.rating),
      IntEntry(it.numberInCart),
      ByteEntry(if it.showRecommended then 1 else 0),
      StrEntry(Some(it.categoryId)),
      LongEntry(it.timestamp) ]
  }

  // What each typed read yields at position i: the stored value, or null / 0
  // when the position is past the end or holds another kind of entry.

  function StringAt(data: seq<Entry>, i: nat): Option<string> {
    if i < |data| && data[i].StrEntry? then data[i].str else None
  }

  function StringListAt(data: seq<Entry>, i: nat): Option<seq<string>> {
    if i < |data| && data[i].StrListEntry? then data[i].strs else None
  }

  function DoubleAt(data: seq<Entry>, i: nat): int {
    if i < |data| && data[i].DoubleEntry? then data[i].dbl else 0
  }

  function IntAt(data: seq<Entry>, i: nat): int {
    if i < |data| && data[i].IntEntry? then data[i].i32 else 0
  }

  function ByteAt(data: seq<Entry>, i: nat): int {
    if i < |data| && data[i].ByteEntry? then data[i].byte else 0
  }

  function LongAt(data: seq<Entry>, i: nat): int {
    if i < |data| && data[i].LongEntry? then data[i].i64 else 0
  }

  /**
   * The record the Parcel constructor builds from the entries starting at
   * `pos`, in read order; a null string becomes "", a null list becomes [],
   * and the flag is "byte != 0".
   */
  function DecodeAt(data: seq<Entry>, pos: nat): Item {
    Item(
      StringAt(data, pos).GetOr(""),
      StringAt(data, pos + 1).GetOr(""),
      StringAt(data, pos + 2).GetOr(""),
      StringListAt(data, pos + 3).GetOr([]),
      StringListAt(data, pos + 4).GetOr([]),
      DoubleAt(data, pos + 5),
      DoubleAt(data, pos + 6),
      IntAt(data, pos + 7),
      ByteAt(data, pos + 8) != 0,
      StringAt(data, pos + 9).GetOr(""),
      LongAt(data, pos + 10))
  }

  /** Reading back what was written, with anything before or after it, gives the same record. */
  lemma {:induction false} DecodeEncode(before: seq<Entry>, it: Item, after: seq<Entry>)
    ensures DecodeAt(before + Encode(it) + after, |before|) == it
  {
    var data := before + Encode(it) + after;
    var e := Encode(it);
    forall k | 0 <= k < FieldCount ensures data[|before| + k] == e[k] {
      assert data == before + (e + after);
    }
  }

  /** Null strings read back as "" and null string lists as []. */
  lemma NullsReadAsEmpty(data: seq<Entry>, pos: nat)
    requires pos + FieldCount <= |data|
    requires data[pos] == data[pos + 1] == data[pos + 2] == data[pos + 9] == StrEntry(None)
    requires data[pos + 3] == data[pos + 4] == StrListEntry(None)
    ensures DecodeAt(data, pos).id == "" && DecodeAt(data, pos).title == ""
    ensures DecodeAt(data, pos).description == "" && DecodeAt(data, pos).categoryId == ""
    ensures DecodeAt(data, pos).picUrl == [] && DecodeAt(data, pos).model == []
  {
  }

  /** Any non-zero byte in the flag slot reads back as `true`, zero as `false`. */
  lemma FlagIsByteNonZero(data: seq<Entry>, pos: nat, b: int)
    requires pos + 8 < |data| && data[pos + 8] == ByteEntry(b)
    ensures DecodeAt(data, pos).showRecommended <==> b != 0
  {
  }

  /**
   * An android.os.Parcel: the entries written so far and the read cursor.
   * A read past the end yields null or 0, wherever the cursor stands.
   */
  class Parcel {
    var data: seq<Entry>
    var pos: nat

    constructor ()
      ensures data == [] && pos == 0
    {
      data := [];
      pos := 0;
    }

    method Write(e: Entry)
      modifies this
      ensures data == old(data) + [e] && pos == old(pos)
    {
      data := data + [e];
    }

    method ReadString() returns (s: Option<string>)
      modifies this
      ensures data == old(data)
      ensures s == StringAt(data, old(pos))
      ensures pos == old(pos) + 1
    {
      s := StringAt(data, pos);
      pos := pos + 1;
    }

    method CreateStringArrayList() returns (l: Option<seq<string>>)
      modifies this
      ensures data == old(data)
      ensures l == StringListAt(data, old(pos))
      ensures pos == old(pos) + 1
    {
      l := StringListAt(data, pos);
      pos := pos + 1;
    }

    method ReadDouble() returns (d: int)
      modifies this
      ensures data == old(data)
      ensures d == DoubleAt(data, old(pos))
      ensures pos == old(pos) + 1
    {
      d := DoubleAt(data, pos);
      pos := pos + 1;
    }

    method ReadInt() returns (i: int)
      modifies this
      ensures data == old(data)
      ensures i == IntAt(data, old(pos))
      ensures pos == old(pos) + 1
    {
      i := IntAt(data, pos);
      pos := pos + 1;
    }

    method ReadByte() returns (b: int)
      modifies this
      ensures data == old(data)
      ensures b == ByteAt(data, old(pos))
      ensures pos == old(pos) + 1
    {
      b := ByteAt(data, pos);
      pos := pos + 1;
    }

    method ReadLong() returns (l: int)
      modifies this
      ensures data == old(data)
      ensures l == LongAt(data, old(pos))
      ensures pos == old(pos) + 1
    {
      l := LongAt(data, pos);
      pos := pos + 1;
    }
  }

  /** `writeToParcel`: appends the eleven fields in declaration order. */
  method WriteToParcel(it: Item, p: Parcel)
    modifies p
    ensures p.data == old(p.data) + Encode(it) && p.pos == old(p.pos)
  {
    ghost var data := p.data;
    p.Write(StrEntry(Some(it.id)));
    p.Write(StrEntry(Some(it.title)));
    p.Write(StrEntry(Some(it.description)));
    p.Write(StrListEntry(Some(it.picUrl)));
    p.Write(StrListEntry(Some(it.model)));
    p.Write(DoubleEntry(it.price));
    p.Write(DoubleEntry(it.rating));
    p.Write(IntEntry(it.numberInCart));
    p.Write(ByteEntry(if it.showRecommended then 1 else 0));
    p.Write(StrEntry(Some(it.categoryId)));
    p.Write(LongEntry(it.timestamp));
    assert p.data == data + Encode(it);
  }

  /** The Parcel constructor (`CREATOR.createFromParcel`): reads the fields in the same order. */
  method CreateFromParcel(p: Parcel) returns (it: Item)
    modifies p
    ensures p.data == old(p.data)
    ensures it == DecodeAt(p.data, old(p.pos))
    ensures p.pos == old(p.pos) + FieldCount
  {
    ghost var data, start := p.data, p.pos;
    var id := p.ReadString();
    var title := p.ReadString();
    var description := p.ReadString();
    var picUrl := p.CreateStringArrayList();
    var model := p.CreateStringArrayList();
    var price := p.ReadDouble();
    var rating := p.ReadDouble();
    var numberInCart := p.ReadInt();
    var flag := p.ReadByte();
    var categoryId := p.ReadString();
    var timestamp := p.ReadLong();
    it := Item(id.GetOr(""), title.GetOr(""), description.GetOr(""),
               picUrl.GetOr([]), model.GetOr([]), price, rating, numberInCart,
               flag != 0, categoryId.GetOr(""), timestamp);
    assert p.data == data && p.pos == start + FieldCount;
    assert it == DecodeAt(data, start);
  }

  /** Writing a record into a fresh parcel and reading it back yields an equal record. */
  method ParcelRoundTrip(it: Item) returns (back: Item)
    ensures back == it
  {
    var p := new Parcel();
    WriteToParcel(it, p);
    back := CreateFromParcel(p);
    DecodeEncode([], it, []);
    assert p.data == [] + Encode(it) + [];
  }

  /** `CREATOR.newArray(n)`: an array of n nulls. */
  method NewArray(n: nat) returns (a: array<Option<Item>>)
    ensures fresh(a) && a.Length == n
    ensures forall i :: 0 <= i < n ==> a[i] == None
  {
    a := new Option<Item>[n](_ => None);
  }
}
