/** Wire bytes and 16-bit register words, with the big-endian conversions Modbus uses. */
module Bytes {
  type Byte = b: int | 0 <= b < 0x100
  type Word = w: int | 0 <= w < 0x10000

  function High(w: Word): Byte { w / 0x100 }

  function Low(w: Word): Byte { w % 0x100 }

  function Join(high: Byte, low: Byte): Word { 0x100 * high + low }

  lemma JoinSplit(high: Byte, low: Byte)
    ensures High(Join(high, low)) == high && Low(Join(high, low)) == low
  {}

  /** Big-endian register words of a payload; an odd last byte is not a word. */
  function Words(payload: seq<Byte>): (ws: seq<Word>)
    ensures |ws| == |payload| / 2
  {
    if |payload| < 2 then [] else [Join(payload[0], payload[1])] + Words(payload[2..])
  }

  function FromWords(ws: seq<Word>): (payload: seq<Byte>)
    ensures |payload| == 2 * |ws|
  {
    if ws == [] then [] else [High(ws[0]), Low(ws[0])] + FromWords(ws[1..])
  }

  lemma {:induction false} WordsRoundTrip(ws: seq<Word>)
    ensures Words(FromWords(ws)) == ws
  {
    if ws != [] {
      var payload := FromWords(ws);
      assert payload[2..] == FromWords(ws[1..]);
      WordsRoundTrip(ws[1..]);
    }
  }

  lemma {:induction false} BytesRoundTrip(payload: seq<Byte>)
    requires |payload| % 2 == 0
    ensures FromWords(Words(payload)) == payload
  {
    if payload != [] {
      BytesRoundTrip(payload[2..]);
      assert Words(payload)[1..] == Words(payload[2..]);
    }
  }

  function Concat<T>(parts: seq<seq<T>>): seq<T> {
    if parts == [] then [] else parts[0] + Concat(parts[1..])
  }

  lemma ConcatNil<T>(rest: seq<T>)
    ensures Concat([]) + rest == rest
  {}

  lemma ConcatCons<T>(first: seq<T>, parts: seq<seq<T>>, rest: seq<T>)
    ensures Concat([first] + parts) + rest == first + (Concat(parts) + rest)
  {
    assert ([first] + parts)[1..] == parts;
  }

  lemma {:induction false} ConcatAppend<T>(parts: seq<seq<T>>, last: seq<T>)
    ensures Concat(parts + [last]) == Concat(parts) + last
  {
    if parts == [] {
    } else {
      assert (parts + [last])[1..] == parts[1..] + [last];
      ConcatAppend(parts[1..], last);
    }
  }
}
