/** The element attributes of a track: written into a response by the target,
    carried by `AvrcpContinuation`, and read back by the controller (sections
    6.6.1 and 6.8 of AVRCP 1.5). */
module AvrcpAttributes {
  import opened Common
  import opened AvrcpContinuation

  const GET_ELEMENT_ATTRIBUTES: byte := 0x20
  const MEDIA_ATTRIBUTE_LAST: nat := 7
  const UTF8: nat := 106
  const ITEM: nat := 8

  /** `struct hal_avrcp_player_setting_text`. */
  datatype Attr = Attr(id: byte, text: seq<byte>)

  /** One entry of the arrays filled by the parser. */
  datatype Item = Item(attr: nat, text: Option<seq<byte>>)

  predicate Short(attrs: seq<Attr>) { forall a :: a in attrs ==> |a.text| < 256 }

  function Be16(n: nat): (s: seq<byte>)
    ensures |s| == 2
  {
    [n / 256 % 256, n % 256]
  }

  function Be32(n: nat): (s: seq<byte>)
    ensures |s| == 4
  {
    Be16(n / 65536) + Be16(n % 65536)
  }

  function FromBe16(s: seq<byte>): nat
    requires |s| == 2
  {
    var high: nat := s[0];
    high * 256 + s[1]
  }

  function FromBe32(s: seq<byte>): nat
    requires |s| == 4
  {
    FromBe16(s[..2]) * 65536 + FromBe16(s[2..])
  }

  // ---------------------------------------------------------------- writing

  /** The attributes as the HAL passes them: identifier, length, text. */
  function Passed(attrs: seq<Attr>): seq<byte>
    requires Short(attrs)
  {
    if attrs == [] then [] else [attrs[0].id, |attrs[0].text|] + attrs[0].text + Passed(attrs[1..])
  }

  function ItemOctets(a: Attr): seq<byte> { Be32(a.id) + Be16(UTF8) + Be16(|a.text|) + a.text }

  function ItemsOctets(attrs: seq<Attr>): seq<byte> {
    if attrs == [] then [] else ItemOctets(attrs[0]) + ItemsOctets(attrs[1..])
  }

  /** The body of the response. */
  function ListOctets(attrs: seq<Attr>): seq<byte>
    requires |attrs| < 256
  {
    [|attrs|] + ItemsOctets(attrs)
  }

  lemma {:induction false} ItemsConcat(a: seq<Attr>, b: seq<Attr>)
    ensures ItemsOctets(a + b) == ItemsOctets(a) + ItemsOctets(b)
  {
    if a == [] {
      assert a + b == b;
    } else {
      assert (a + b)[1..] == a[1..] + b;
      ItemsConcat(a[1..], b);
    }
  }

  method PutBe16(n: nat, pdu: array<byte>, at: nat)
    requires at + 2 <= pdu.Length
    modifies pdu
    ensures pdu[..] == old(pdu[..at]) + Be16(n) + old(pdu[at + 2..])
  {
    pdu[at] := n / 256 % 256;
    pdu[at + 1] := n % 256;
  }

  method PutBe32(n: nat, pdu: array<byte>, at: nat)
    requires at + 4 <= pdu.Length
    modifies pdu
    ensures pdu[..] == old(pdu[..at]) + Be32(n) + old(pdu[at + 4..])
  {
    PutBe16(n / 65536, pdu, at);
    PutBe16(n % 65536, pdu, at + 2);
  }

  method CopyIn(text: seq<byte>, pdu: array<byte>, at: nat)
    requires at + |text| <= pdu.Length
    modifies pdu
    ensures pdu[..] == old(pdu[..at]) + text + old(pdu[at + |text|..])
  {
    var i := 0;
    while i < |text|
      invariant 0 <= i <= |text|
      invariant pdu[..] == old(pdu[..at]) + text[..i] + old(pdu[at + i..])
    {
      pdu[at + i] := text[i];
      i := i + 1;
    }
    assert text[..i] == text;
  }

  /** `write_element_text`, at offset `at` of the buffer. */
  method WriteElementText(id: byte, text: seq<byte>, pdu: array<byte>, at: nat) returns (len: nat)
    requires |text| < 256 && at + ITEM + |text| <= pdu.Length
    modifies pdu
    ensures len == ITEM + |text| == |ItemOctets(Attr(id, text))|
    ensures pdu[..at + len] == old(pdu[..at]) + ItemOctets(Attr(id, text))
    ensures pdu[..] == old(pdu[..at]) + ItemOctets(Attr(id, text)) + old(pdu[at + ITEM + |text|..])
  {
    hide Be16, Be32;
    ghost var before, after := pdu[..at], pdu[at + ITEM + |text|..];
    PutBe32(id, pdu, at);
    assert pdu[..at + 4] == before + Be32(id) && pdu[at + ITEM + |text|..] == after;
    PutBe16(UTF8, pdu, at + 4);
    assert pdu[..at + 6] == before + Be32(id) + Be16(UTF8) && pdu[at + ITEM + |text|..] == after;
    PutBe16(|text|, pdu, at + 6);
    assert pdu[..at + 8] == before + Be32(id) + Be16(UTF8) + Be16(|text|) && pdu[at + ITEM + |text|..] == after;
    CopyIn(text, pdu, at + 8);
    len := 8 + |text|;
  }

  lemma PassedHead(attrs: seq<Attr>)
    requires Short(attrs) && attrs != []
    ensures var s, a := Passed(attrs), attrs[0];
            && |s| >= 2 + |a.text| && s[0] == a.id && s[1] == |a.text|
            && s[2..2 + |a.text|] == a.text && s[2 + |a.text|..] == Passed(attrs[1..])
  {
  }

  /** The next item, and the room it takes. */
  lemma ItemNext(attrs: seq<Attr>, i: nat)
    requires i < |attrs|
    ensures ItemsOctets(attrs[..i + 1]) == ItemsOctets(attrs[..i]) + ItemOctets(attrs[i])
    ensures |ItemsOctets(attrs[..i + 1])| <= |ItemsOctets(attrs)| && |ItemOctets(attrs[i])| == ITEM + |attrs[i].text|
  {
    var a := attrs[i];
    assert attrs[..i + 1] == attrs[..i] + [a] && attrs == attrs[..i + 1] + attrs[i + 1..];
    ItemsConcat(attrs[..i], [a]);
    ItemsConcat(attrs[..i + 1], attrs[i + 1..]);
    assert ItemsOctets([a]) == ItemOctets(a);
  }

  /** `write_element_attrs`: `input` is the packed list of the HAL command,
      which `attrs` describes. */
  method WriteElementAttrs(input: seq<byte>, number: byte, pdu: array<byte>, ghost attrs: seq<Attr>) returns (len: nat)
    requires Short(attrs) && input == Passed(attrs) && number == |attrs|
    requires |ListOctets(attrs)| <= pdu.Length
    modifies pdu
    ensures len == |ListOctets(attrs)| && pdu[..len] == ListOctets(attrs)
  {
    hide Passed, ItemOctets;
    pdu[0] := number;
    len := 1;
    assert attrs[..0] == [] && attrs[0..] == attrs;
    var ptr, i := input, 0;
    while i < number
      invariant 0 <= i <= number && ptr == Passed(attrs[i..])
      invariant len == 1 + |ItemsOctets(attrs[..i])| && len <= pdu.Length
      invariant pdu[..len] == [number] + ItemsOctets(attrs[..i])
    {
      PassedHead(attrs[i..]);
      assert attrs[i..][1..] == attrs[i + 1..];
      ItemNext(attrs, i);
      var text := ptr[2..2 + ptr[1]];
      assert Attr(ptr[0], text) == attrs[i];
      var ret := WriteElementText(ptr[0], text, pdu, len);
      ptr := ptr[2 + ptr[1]..];
      len := len + ret;
      i := i + 1;
    }
    assert attrs[..i] == attrs;
  }

  // ---------------------------------------------------------------- reading

  /** `g_strndup`: up to the first NUL. */
  function StrNDup(s: seq<byte>): seq<byte> {
    if s == [] || s[0] == 0 then [] else [s[0]] + StrNDup(s[1..])
  }

  function ItemOf(attr: nat, text: seq<byte>): Item {
    if text == [] then Item(0, None) else Item(attr, Some(StrNDup(text)))
  }

  /** What is read of a list of at most `n` items; None for an error. A list
      that ends early, within the header of an item, is no error. */
  function ReadItems(params: seq<byte>, n: nat): Option<seq<Item>>
    decreases n
  {
    if n == 0 || |params| < ITEM then Some([])
    else
      var len, rest := FromBe16(params[6..8]), params[ITEM..];
      if len > |rest| then None
      else
        After([ItemOf(FromBe32(params[..4]), rest[..len])], ReadItems(rest[len..], n - 1))
  }

  function After(items: seq<Item>, more: Option<seq<Item>>): Option<seq<Item>> {
    match more case None => None case Some(tail) => Some(items + tail)
  }

  lemma AfterOne(items: seq<Item>, item: Item, more: Option<seq<Item>>)
    ensures After(items, After([item], more)) == After(items + [item], more)
  {
    if more.Some? { assert items + ([item] + more.value) == (items + [item]) + more.value; }
  }

  function ReadElements(params: seq<byte>): Option<seq<Item>> {
    if |params| < 1 || params[0] > MEDIA_ATTRIBUTE_LAST then None else ReadItems(params[1..], params[0])
  }

  lemma ReadOne(params: seq<byte>, n: nat)
    requires n > 0 && |params| >= ITEM
    ensures var len, rest := FromBe16(params[6..8]), params[ITEM..];
            ReadItems(params, n)
            == if len > |rest| then None
               else After([ItemOf(FromBe32(params[..4]), rest[..len])], ReadItems(rest[len..], n - 1))
  {
  }

  lemma ReadEnd(items: seq<Item>, params: seq<byte>, n: nat)
    ensures n == 0 || |params| < ITEM ==> After(items, ReadItems(params, n)) == Some(items)
    ensures After([], ReadItems(params, n)) == ReadItems(params, n)
    ensures After(items, None) == None
  {
    assert items + [] == items;
    if ReadItems(params, n).Some? { assert [] + ReadItems(params, n).value == ReadItems(params, n).value; }
  }

  /** One entry of the two arrays. */
  method Fill(attr: nat, data: seq<byte>, attrs: array<nat>, text: array<Option<seq<byte>>>, i: nat)
    requires i < attrs.Length == text.Length
    modifies attrs, text
    ensures Item(attrs[i], text[i]) == ItemOf(attr, data)
    ensures forall k :: 0 <= k < attrs.Length && k != i ==> attrs[k] == old(attrs[k]) && text[k] == old(text[k])
  {
    if |data| > 0 {
      text[i] := Some(StrNDup(data));
      attrs[i] := attr;
    } else {
      text[i] := None;
      attrs[i] := 0;
    }
  }

  /** `parse_attribute_list`: fills the two arrays from their start. */
  method ParseAttributeList(params: seq<byte>, number: byte, attrs: array<nat>, text: array<Option<seq<byte>>>)
    returns (good: bool, count: nat)
    requires attrs.Length == MEDIA_ATTRIBUTE_LAST && text.Length == MEDIA_ATTRIBUTE_LAST
    modifies attrs, text
    ensures good <==> number <= MEDIA_ATTRIBUTE_LAST && ReadItems(params, number).Some?
    ensures good ==> var items := ReadItems(params, number).value;
                     && count == |items| <= number
                     && (forall i :: 0 <= i < count ==> attrs[i] == items[i].attr && text[i] == items[i].text)
                     && (forall i :: count <= i < MEDIA_ATTRIBUTE_LAST ==>
                           attrs[i] == old(attrs[i]) && text[i] == old(text[i]))
  {
    if number > MEDIA_ATTRIBUTE_LAST { return false, 0; }
    var left, i := params, 0;
    ghost var items: seq<Item> := [];
    hide StrNDup, FromBe16, FromBe32, ReadItems, ItemOf, After;
    ReadEnd([], params, number);
    while i < number && |left| >= ITEM
      invariant 0 <= i <= number && |items| == i
      invariant ReadItems(params, number) == After(items, ReadItems(left, number - i))
      invariant forall k :: 0 <= k < i ==> attrs[k] == items[k].attr && text[k] == items[k].text
      invariant forall k :: i <= k < MEDIA_ATTRIBUTE_LAST ==> attrs[k] == old(attrs[k]) && text[k] == old(text[k])
      decreases number - i
    {
      ReadOne(left, number - i);
      var attr, len := FromBe32(left[..4]), FromBe16(left[6..8]);
      left := left[ITEM..];
      if len > |left| {
        ReadEnd(items, left, 0);
        return false, 0;
      }
      ghost var item := ItemOf(attr, left[..len]);
      Fill(attr, left[..len], attrs, text, i);
      left := left[len..];
      AfterOne(items, item, ReadItems(left, number - i - 1));
      items := items + [item];
      i := i + 1;
    }
    ReadEnd(items, left, number - i);
    good, count := true, i;
  }

  /** `parse_elements`. */
  method ParseElements(params: seq<byte>, attrs: array<nat>, text: array<Option<seq<byte>>>)
    returns (good: bool, number: byte, count: nat)
    requires attrs.Length == MEDIA_ATTRIBUTE_LAST && text.Length == MEDIA_ATTRIBUTE_LAST
    modifies attrs, text
    ensures good <==> ReadElements(params).Some?
    ensures good ==> var items := ReadElements(params).value;
                     && number == params[0] && count == |items| <= MEDIA_ATTRIBUTE_LAST
                     && (forall i :: 0 <= i < count ==> attrs[i] == items[i].attr && text[i] == items[i].text)
  {
    good, number, count := false, 0, 0;
    if |params| < 1 || params[0] > MEDIA_ATTRIBUTE_LAST { return; }
    number := params[0];
    good, count := ParseAttributeList(params[1..], number, attrs, text);
  }

  // -------------------------------------------------------------- properties

  /** What the reader makes of an attribute. */
  function Normal(attrs: seq<Attr>): seq<Item> {
    if attrs == [] then [] else [ItemOf(attrs[0].id, attrs[0].text)] + Normal(attrs[1..])
  }

  function Exactly(attrs: seq<Attr>): seq<Item> {
    if attrs == [] then [] else [Item(attrs[0].id, Some(attrs[0].text))] + Exactly(attrs[1..])
  }

  lemma HeaderRead(id: byte, len: byte)
    ensures FromBe32(Be32(id)) == id && FromBe16(Be16(len)) == len
  {
  }

  /** The parts of the first item. */
  lemma ItemParts(a: Attr, more: seq<byte>)
    requires |a.text| < 256
    ensures var s := ItemOctets(a) + more;
            && |s| >= ITEM && FromBe32(s[..4]) == a.id && FromBe16(s[6..8]) == |a.text|
            && s[ITEM..] == a.text + more
  {
    hide Be32, Be16;
    var s := ItemOctets(a) + more;
    HeaderRead(a.id, |a.text|);
    assert s[..4] == Be32(a.id) && s[6..8] == Be16(|a.text|);
  }

  /** The items, with anything behind them that is no further item. */
  lemma {:induction false} ItemsRead(attrs: seq<Attr>, n: nat, tail: seq<byte>)
    requires Short(attrs) && |attrs| <= n && (|attrs| == n || |tail| < ITEM)
    ensures ReadItems(ItemsOctets(attrs) + tail, n) == Some(Normal(attrs))
  {
    hide Be32, Be16, FromBe32, FromBe16, ItemOctets, ItemOf;
    if attrs == [] {
      assert ItemsOctets(attrs) + tail == tail;
    } else {
      var a, more := attrs[0], ItemsOctets(attrs[1..]) + tail;
      assert ItemsOctets(attrs) + tail == ItemOctets(a) + more;
      ItemParts(a, more);
      ReadOne(ItemOctets(a) + more, n);
      assert (a.text + more)[|a.text|..] == more && (a.text + more)[..|a.text|] == a.text;
      assert forall b :: b in attrs[1..] ==> b in attrs;
      ItemsRead(attrs[1..], n - 1, tail);
    }
  }

  /** A list of up to seven attributes is read back as written, but that a text
      ends at its first NUL and an empty text loses its attribute; a longer list
      is refused. */
  lemma ListRead(attrs: seq<Attr>)
    requires Short(attrs) && |attrs| < 256
    ensures ReadElements(ListOctets(attrs)) == if |attrs| <= MEDIA_ATTRIBUTE_LAST then Some(Normal(attrs)) else None
  {
    var params := ListOctets(attrs);
    if |attrs| <= MEDIA_ATTRIBUTE_LAST {
      assert params[1..] == ItemsOctets(attrs) + [];
      ItemsRead(attrs, |attrs|, []);
    }
  }

  /** A list cut short after `k` items, or within the header of the next, is
      accepted, with the items before the cut. */
  lemma CutListRead(attrs: seq<Attr>, k: nat, j: nat)
    requires Short(attrs) && k < |attrs| <= MEDIA_ATTRIBUTE_LAST && j < ITEM
    ensures var cut := 1 + |ItemsOctets(attrs[..k])| + j;
            && cut <= |ListOctets(attrs)|
            && ReadElements(ListOctets(attrs)[..cut]) == Some(Normal(attrs[..k]))
  {
    assert attrs == attrs[..k] + attrs[k..];
    ItemsConcat(attrs[..k], attrs[k..]);
    assert attrs[k..][0] == attrs[k];
    var tail := ItemsOctets(attrs[k..])[..j];
    var cut := 1 + |ItemsOctets(attrs[..k])| + j;
    assert ListOctets(attrs)[..cut][1..] == ItemsOctets(attrs[..k]) + tail;
    assert forall a :: a in attrs[..k] ==> a in attrs;
    ItemsRead(attrs[..k], |attrs|, tail);
  }

  lemma {:induction false} NulFree(s: seq<byte>)
    ensures StrNDup(s) == s <==> 0 !in s
    ensures |StrNDup(s)| <= |s|
  {
    if s != [] && s[0] != 0 {
      NulFree(s[1..]);
      assert s == [s[0]] + s[1..];
    }
  }

  /** Nothing is lost if and only if every text is non-empty and free of NUL. */
  lemma {:induction false} NothingLost(attrs: seq<Attr>)
    ensures Normal(attrs) == Exactly(attrs) <==> forall a :: a in attrs ==> a.text != [] && 0 !in a.text
  {
    if attrs != [] {
      var a := attrs[0];
      NulFree(a.text);
      NothingLost(attrs[1..]);
      assert attrs == [a] + attrs[1..];
      assert Normal(attrs)[0] == ItemOf(a.id, a.text) && Exactly(attrs)[0] == Item(a.id, Some(a.text));
      assert Normal(attrs)[1..] == Normal(attrs[1..]) && Exactly(attrs)[1..] == Exactly(attrs[1..]);
    }
  }

  /** From end to end: the list is written, sent as one response, and pulled
      with as many requests as it takes; the pieces, put together again, are
      read back, whatever the size of a packet. */
  lemma EndToEnd(attrs: seq<Attr>, c: Channel, room: nat)
    requires Short(attrs) && |attrs| <= MEDIA_ATTRIBUTE_LAST && room > 0
    ensures var body := ListOctets(attrs);
            var sent := Send(c, room, GET_ELEMENT_ATTRIBUTES, Single, body);
            var done := Pulled(sent, room, GET_ELEMENT_ATTRIBUTES, Count(room, |body|) - 1);
            && done.rest.None? && |done.handed| == |c.handed| + Count(room, |body|)
            && ReadElements(Flatten(Bodies(done.handed[|c.handed|..]))) == Some(Normal(attrs))
            && (ReadElements(Flatten(Bodies(done.handed[|c.handed|..]))) == Some(Exactly(attrs))
                <==> forall a :: a in attrs ==> a.text != [] && 0 !in a.text)
  {
    var body := ListOctets(attrs);
    var pieces := Pieces(room, GET_ELEMENT_ATTRIBUTES, Single, body);
    TransferIs(c, room, GET_ELEMENT_ATTRIBUTES, Single, body);
    PiecesAre(room, GET_ELEMENT_ATTRIBUTES, Single, body);
    assert (c.handed + pieces)[|c.handed|..] == pieces;
    ListRead(attrs);
    NothingLost(attrs);
  }

  // ------------------------------------------------------------- octet by octet

  /** The octets of one item: the identifier in four, the character set UTF-8,
      which is 106, in two, the length in two, and the text. */
  lemma ItemLayout(a: Attr)
    requires |a.text| < 256
    ensures ItemOctets(a) == [0, 0, 0, a.id, 0, 106, 0, |a.text|] + a.text
  {
    assert Be32(a.id) == [0, 0, 0, a.id] && Be16(UTF8) == [0, 106] && Be16(|a.text|) == [0, |a.text|];
  }

  /** The list of one more attribute. */
  lemma ListLayout(attrs: seq<Attr>, a: Attr)
    requires |attrs| < 255 && |a.text| < 256
    ensures ListOctets([]) == [0]
    ensures ListOctets(attrs + [a])
            == [|attrs| + 1] + ListOctets(attrs)[1..] + ([0, 0, 0, a.id, 0, 106, 0, |a.text|] + a.text)
  {
    hide ItemOctets;
    ItemsConcat(attrs, [a]);
    ItemLayout(a);
    assert ItemsOctets([a]) == ItemOctets(a);
    hide ItemsOctets;
    assert ListOctets(attrs)[1..] == ItemsOctets(attrs);
  }

  /** A text is read up to its first NUL. */
  lemma {:induction false} TextRead(s: seq<byte>, k: nat)
    requires k <= |s| && 0 !in s[..k] && (k < |s| ==> s[k] == 0)
    ensures StrNDup(s) == s[..k]
  {
    if k > 0 {
      assert s[..k][0] == s[0] && s[..k][1..] == s[1..][..k - 1];
      assert forall b :: b in s[1..][..k - 1] ==> b in s[..k];
      TextRead(s[1..], k - 1);
    }
  }

  /** One item at the front of what is left, whatever its octets: identifier and
      length are big-endian, the character set is not looked at, a text that is
      not whole is an error, an empty one leaves no attribute. */
  lemma FrontRead(h: seq<byte>, rest: seq<byte>, n: nat)
    requires |h| == 8 && n > 0
    ensures var attr := ((h[0] as nat * 256 + h[1]) * 256 + h[2]) * 256 + h[3];
            var len := h[6] as nat * 256 + h[7];
            var more := if len <= |rest| then ReadItems(rest[len..], n - 1) else None;
            && (len > |rest| ==> ReadItems(h + rest, n) == None)
            && (len <= |rest| && more.None? ==> ReadItems(h + rest, n) == None)
            && (len <= |rest| && more.Some? ==>
                  ReadItems(h + rest, n)
                  == Some([if len == 0 then Item(0, None) else Item(attr, Some(StrNDup(rest[..len])))] + more.value))
  {
    var params := h + rest;
    assert params[..4] == h[..4] && params[6..8] == h[6..8] && params[8..] == rest;
    ReadOne(params, n);
  }

  /** What is too short for a header, or not asked for, is not read; a body
      without a number, or with one above seven, is an error. */
  lemma EndRead(params: seq<byte>, n: nat)
    ensures n == 0 || |params| < 8 ==> ReadItems(params, n) == Some([])
    ensures params == [] || params[0] > 7 ==> ReadElements(params) == None
    ensures params != [] && params[0] <= 7 ==> ReadElements(params) == ReadItems(params[1..], params[0])
  {
  }
}
