/** Keyset pagination: one page of active items under an opaque cursor. */
module Keyset {
  import opened Wrappers
  import opened Base64
  import Utf8

  type Time = int
  type Id = nat

  datatype Item = Item(created: Time, id: Id, active: bool)

  /** The place a cursor stands for. */
  datatype Place = Place(created: Time, id: Id)

  function PlaceOf(i: Item): Place { Place(i.created, i.id) }

  /** `(created_at, id) <` as a row comparison. */
  predicate Less(a: Place, b: Place) {
    a.created < b.created || (a.created == b.created && a.id < b.id)
  }

  // ---- The cursor -----------------------------------------------------------------------------

  /** How times and ids are written and read back. */
  datatype Texts = Texts(iso: Time -> string, time: string -> Option<Time>, hex: Id -> string, uuid: string -> Option<Id>)

  ghost predicate Faithful(x: Texts) {
    && (forall t :: x.time(x.iso(t)) == Some(t) && '|' !in x.iso(t))
    && forall i: Id :: x.uuid(x.hex(i)) == Some(i)
  }

  /** `encode_cursor` */
  function EncodeCursor(x: Texts, p: Place): string {
    Encode(Utf8.Encoded(x.iso(p.created) + ("|" + x.hex(p.id))))
  }

  function Bar(s: string): (i: nat)
    ensures i <= |s| && (i < |s| ==> s[i] == '|') && forall k :: 0 <= k < i ==> s[k] != '|'
  {
    if s == "" || s[0] == '|' then 0 else 1 + Bar(s[1..])
  }

  /** `_decode_cursor`, split at the first bar, and the two conversions; `None` is an exception. */
  function DecodeCursor(x: Texts, cursor: string): Option<Place> {
    match DecodeBytes(cursor)
    case None => None
    case Some(bs) =>
      match Utf8.Decoded(bs)
      case None => None
      case Some(s) =>
        var i := Bar(s);
        if i == |s| then None
        else
          match (x.time(s[..i]), x.uuid(s[i + 1..]))
          case (Some(t), Some(id)) => Some(Place(t, id))
          case _ => None
  }

  // ---- The query ------------------------------------------------------------------------------

  predicate Wanted(i: Item, after: Option<Place>) {
    i.active && (after.None? || Less(PlaceOf(i), after.value))
  }

  function Matching(rows: seq<Item>, after: Option<Place>): seq<Item> {
    if rows == [] then []
    else
      var last := rows[|rows| - 1];
      Matching(rows[..|rows| - 1], after) + if Wanted(last, after) then [last] else []
  }

  /** Insertion into a falling sequence. */
  function Insert(sorted: seq<Item>, i: Item): seq<Item> {
    if sorted == [] || Less(PlaceOf(sorted[0]), PlaceOf(i)) then [i] + sorted else [sorted[0]] + Insert(sorted[1..], i)
  }

  function Sorted(rows: seq<Item>): seq<Item> {
    if rows == [] then [] else Insert(Sorted(rows[..|rows| - 1]), rows[|rows| - 1])
  }

  /** `ORDER BY created_at DESC, id DESC` */
  function Remaining(rows: seq<Item>, after: Option<Place>): seq<Item> {
    Sorted(Matching(rows, after))
  }

  datatype Page = Failed | Page(items: seq<Item>, next: Option<string>)

  /** The page after a place: the next `limit` items, and a cursor at the last of them if there are more. */
  function PageAfter(x: Texts, rows: seq<Item>, after: Option<Place>, limit: nat): Page {
    var all := Remaining(rows, after);
    if |all| > limit then
      Page(all[..limit], Some(EncodeCursor(x, PlaceOf(all[if limit == 0 then 0 else limit - 1]))))
    else Page(all, None)
  }

  function PageFor(x: Texts, rows: seq<Item>, cursor: Option<string>, limit: nat): Page {
    match cursor
    case None => PageAfter(x, rows, None, limit)
    case Some(c) =>
      match DecodeCursor(x, c)
      case None => Failed
      case Some(p) => PageAfter(x, rows, Some(p), limit)
  }

  /** `list_items`: fetch one row more than the page, and slice. */
  method ListItems(x: Texts, rows: seq<Item>, cursor: Option<string>, limit: nat) returns (page: Page)
    ensures page == PageFor(x, rows, cursor, limit)
  {
    var after: Option<Place> := None;
    if cursor.Some? {
      after := DecodeCursor(x, cursor.value);
      if after.None? { return Failed; }
    }
    var all := Remaining(rows, after);
    var items := all[..Min(limit + 1, |all|)];
    var next: Option<string> := None;
    if |items| > limit {
      var last := items[if limit == 0 then |items| - 1 else limit - 1];   // a negative index counts from the end
      next := Some(EncodeCursor(x, PlaceOf(last)));
      items := items[..limit];
    }
    assert items == if |all| > limit then all[..limit] else all;
    page := Page(items, next);
  }
}
