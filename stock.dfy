// The client's stock cache (stock.js): the last quantity the server reported
// per item code and the quantities the cart reserves. What the till shows is
// the difference, never below zero. The server fetch of `refresh`, a
// `reserve` that lands while that fetch is awaited, and the clock are
// parameters.

module StockModel {
  import opened Common

  /** An item or a stock update as the server sends it. */
  datatype StockRow = StockRow(code: string, actualQty: Option<real>, stockQty: Option<real>, warehouse: Option<string>)

  /** One entry of the `server` map; `qty` is absent when an update carried
      neither `actual_qty` nor `stock_qty`. */
  datatype ServerEntry = ServerEntry(qty: Option<real>, warehouse: Option<string>, ts: int)

  /** A cart line as `reserve` reads it; `quantity` is `Number(quantity)`,
      `None` for NaN. */
  datatype CartLine = CartLine(code: string, quantity: Option<real>)

  function ServerQty(server: map<string, ServerEntry>, code: string): real
  {
    if code in server then OrNum(server[code].qty, 0.0) else 0.0
  }

  function ReservedQty(reserved: map<string, real>, code: string): real
  {
    if code in reserved then Or(reserved[code], 0.0) else 0.0
  }

  /** `getDisplayStock`: server quantity minus reservation, clamped at 0. */
  function DisplayStock(server: map<string, ServerEntry>, reserved: map<string, real>, code: string): (r: real)
    ensures r >= 0.0
    ensures r >= ServerQty(server, code) - ReservedQty(reserved, code)
    ensures r == 0.0 || r == ServerQty(server, code) - ReservedQty(reserved, code)
  {
    MaxReal(ServerQty(server, code) - ReservedQty(reserved, code), 0.0)
  }

  /** The entry `init` (`isInit`) or `update` writes for one row. */
  function Entry(row: StockRow, isInit: bool, warehouse: Option<string>, now: int): (e: ServerEntry)
    ensures row.actualQty.Some? ==> e.qty == row.actualQty
    ensures row.actualQty.None? && row.stockQty.Some? ==> e.qty == row.stockQty
    ensures row.actualQty.None? && row.stockQty.None? ==> e.qty == (if isInit then Some(0.0) else None)
    ensures e.warehouse == OrStr(row.warehouse, warehouse) && e.ts == now
  {
    var q := if row.actualQty.Some? then row.actualQty else if row.stockQty.Some? then row.stockQty
             else if isInit then Some(0.0) else None;
    ServerEntry(q, OrStr(row.warehouse, warehouse), now)
  }

  /** The server map after the rows are written in order. */
  function Written(server: map<string, ServerEntry>, rows: seq<StockRow>, isInit: bool,
                   warehouse: Option<string>, now: int): map<string, ServerEntry>
  {
    if rows == [] then server
    else
      var last := rows[|rows| - 1];
      Written(server, rows[..|rows| - 1], isInit, warehouse, now)[last.code := Entry(last, isInit, warehouse, now)]
  }

  /** The reservation map `reserve` builds from the cart. */
  function Reservations(cart: seq<CartLine>): map<string, real>
  {
    if cart == [] then map[]
    else
      var last := cart[|cart| - 1];
      var q := OrNum(last.quantity, 0.0);
      var m := Reservations(cart[..|cart| - 1]);
      if q > 0.0 then m[last.code := q] else m
  }

  /** The index of the last row for `code`, if any. */
  function LastRowFor(rows: seq<StockRow>, code: string): (r: Option<nat>)
    ensures r.Some? ==> r.value < |rows| && rows[r.value].code == code
    ensures r.Some? ==> forall k :: r.value < k < |rows| ==> rows[k].code != code
    ensures r.None? <==> forall k :: 0 <= k < |rows| ==> rows[k].code != code
  {
    if rows == [] then None
    else if rows[|rows| - 1].code == code then Some(|rows| - 1)
    else LastRowFor(rows[..|rows| - 1], code)
  }

  /** A cart line that reserves something. */
  predicate Reserving(l: CartLine)
  {
    OrNum(l.quantity, 0.0) > 0.0
  }

  /** The index of the last reserving cart line for `code`, if any. */
  function LastReserving(cart: seq<CartLine>, code: string): (r: Option<nat>)
    ensures r.Some? ==> r.value < |cart| && cart[r.value].code == code && Reserving(cart[r.value])
    ensures r.Some? ==> forall k :: r.value < k < |cart| ==> !(cart[k].code == code && Reserving(cart[k]))
    ensures r.None? <==> forall k :: 0 <= k < |cart| ==> !(cart[k].code == code && Reserving(cart[k]))
  {
    if cart == [] then None
    else if cart[|cart| - 1].code == code && Reserving(cart[|cart| - 1]) then Some(|cart| - 1)
    else LastReserving(cart[..|cart| - 1], code)
  }

  /** The whole state of the store. */
  datatype StockState = StockState(server: map<string, ServerEntry>, reserved: map<string, real>,
                                   warehouse: Option<string>, refreshing: bool)

  /** What `refresh`'s server call does: it answers with rows, or it fails
      (an error or the ten-second timeout). */
  datatype Fetch = Fetched(rows: seq<StockRow>) | FetchFailed

  /** The codes `refresh` sends to the server, or `None` when it returns
      before the call: no warehouse at all, or nothing to ask for. */
  function RefreshRequest(s: StockState, itemCodes: Option<seq<string>>, target: Option<string>): (r: Option<set<string>>)
    ensures !Truthy(target) && !Truthy(s.warehouse) ==> r.None?
    ensures r.Some? ==> r.value != {}
    ensures r.Some? && itemCodes.Some? ==> forall c :: c in r.value <==> c in itemCodes.value
    ensures r.Some? && itemCodes.None? ==> r.value == s.server.Keys
    ensures (Truthy(target) || Truthy(s.warehouse)) && itemCodes.Some? && |itemCodes.value| > 0 ==> r.Some?
  {
    if !Truthy(target) && !Truthy(s.warehouse) then None
    else if itemCodes.Some? then
      if |itemCodes.value| == 0 then None
      else
        var codes := set c | c in itemCodes.value;
        assert itemCodes.value[0] in codes;
        Some(codes)
    else if |s.server| == 0 then None
    else
      Some(s.server.Keys)
  }

  /** `refresh`: the fetched rows are written like `update` writes them, and
      the reservations are the ones on entry whatever happens meanwhile. */
  function RefreshStep(s: StockState, itemCodes: Option<seq<string>>, target: Option<string>,
                       fetch: Fetch, now: int): StockState
  {
    if !Truthy(target) && !Truthy(s.warehouse) then s
    else if RefreshRequest(s, itemCodes, target).None? then s.(refreshing := false)
    else match fetch
      case FetchFailed => s.(refreshing := false)
      case Fetched(rows) => s.(server := Written(s.server, rows, false, s.warehouse, now), refreshing := false)
  }

  // ---------------------------------------------------------------------
  // What the maps hold
  // ---------------------------------------------------------------------

  /** After `init` or `update`, a code holds the entry of the last row for
      it; a code no row names keeps what it had. */
  lemma {:induction false} WrittenLast(server: map<string, ServerEntry>, rows: seq<StockRow>, isInit: bool,
                                       warehouse: Option<string>, now: int, code: string)
    ensures var w := Written(server, rows, isInit, warehouse, now);
      var k := LastRowFor(rows, code);
      (code in w <==> code in server || k.Some?) &&
      (k.Some? ==> w[code] == Entry(rows[k.value], isInit, warehouse, now)) &&
      (k.None? && code in server ==> w[code] == server[code])
  {
    if rows != [] {
      WrittenLast(server, rows[..|rows| - 1], isInit, warehouse, now, code);
    }
  }

  /** `reserve`: a code is reserved exactly when some cart line for it has a
      positive quantity, and then with the quantity of the last such line. */
  lemma {:induction false} ReservationsLast(cart: seq<CartLine>, code: string)
    ensures var r := Reservations(cart);
      var k := LastReserving(cart, code);
      (code in r <==> k.Some?) &&
      (k.Some? ==> r[code] == OrNum(cart[k.value].quantity, 0.0) && r[code] > 0.0)
  {
    if cart != [] {
      ReservationsLast(cart[..|cart| - 1], code);
    }
  }

  /** The stock shown right after `reserve`. */
  lemma DisplayAfterReserve(server: map<string, ServerEntry>, cart: seq<CartLine>, code: string)
    ensures var k := LastReserving(cart, code);
      DisplayStock(server, Reservations(cart), code) ==
        (if k.Some? then MaxReal(ServerQty(server, code) - OrNum(cart[k.value].quantity, 0.0), 0.0)
         else MaxReal(ServerQty(server, code), 0.0))
  {
    ReservationsLast(cart, code);
  }

  /** The stock shown right after `update`: the last row's quantity, with
      the reservation still subtracted. */
  lemma DisplayAfterUpdate(s: StockState, rows: seq<StockRow>, now: int, code: string)
    requires LastRowFor(rows, code).Some?
    ensures var row := rows[LastRowFor(rows, code).value];
      var q := if row.actualQty.Some? then row.actualQty else row.stockQty;
      DisplayStock(Written(s.server, rows, false, s.warehouse, now), s.reserved, code) ==
        MaxReal(OrNum(q, 0.0) - ReservedQty(s.reserved, code), 0.0)
  {
    WrittenLast(s.server, rows, false, s.warehouse, now, code);
  }

  /** `clear` leaves the full server quantity on display. */
  lemma DisplayAfterClear(server: map<string, ServerEntry>, code: string)
    ensures DisplayStock(server, map[], code) == MaxReal(ServerQty(server, code), 0.0)
  {
  }
}

/** The Pinia store object: the two maps are fields that the actions
    replace. */
module Stock {
  import opened Common
  import opened StockModel

  class StockStore {
    var server: map<string, ServerEntry>
    var reserved: map<string, real>
    var warehouse: Option<string>
    var refreshing: bool

    function State(): StockState
      reads this
    {
      StockState(server, reserved, warehouse, refreshing)
    }

    constructor()
      ensures State() == StockState(map[], map[], None, false)
    {
      server := map[];
      reserved := map[];
      warehouse := None;
      refreshing := false;
    }

    /** `init`: one entry per item, defaulting the quantity to 0. */
    method Init(items: Option<seq<StockRow>>, now: int)
      modifies this
      ensures items.None? ==> State() == old(State())
      ensures items.Some? ==> State() == old(State()).(server := Written(old(server), items.value, true, warehouse, now))
    {
      if items.None? {
        return;
      }
      WriteRows(items.value, true, now);
    }

    /** `update`: one entry per row, the quantity left absent when the row
        has none; the reservations are not touched. */
    method Update(updates: Option<seq<StockRow>>, now: int)
      modifies this
      ensures updates.None? ==> State() == old(State())
      ensures updates.Some? ==> State() == old(State()).(server := Written(old(server), updates.value, false, warehouse, now))
    {
      if updates.None? {
        return;
      }
      WriteRows(updates.value, false, now);
    }

    /** The `forEach` both `init` and `update` run. */
    method WriteRows(rows: seq<StockRow>, isInit: bool, now: int)
      modifies this
      ensures State() == old(State()).(server := Written(old(server), rows, isInit, warehouse, now))
    {
      var i := 0;
      while i < |rows|
        invariant 0 <= i <= |rows|
        invariant State() == old(State()).(server := Written(old(server), rows[..i], isInit, warehouse, now))
      {
        assert rows[..i + 1][..i] == rows[..i];
        server := server[rows[i].code := Entry(rows[i], isInit, warehouse, now)];
        i := i + 1;
      }
      assert rows[..i] == rows;
    }

    /** `reserve`: the reservations rebuilt from the cart. */
    method Reserve(cart: Option<seq<CartLine>>)
      modifies this
      ensures State() == old(State()).(reserved := Reservations(if cart.Some? then cart.value else []))
    {
      reserved := map[];
      if cart.None? {
        return;
      }
      var c := cart.value;
      var i := 0;
      while i < |c|
        invariant 0 <= i <= |c|
        invariant State() == old(State()).(reserved := Reservations(c[..i]))
      {
        assert c[..i + 1][..i] == c[..i];
        var quantity := OrNum(c[i].quantity, 0.0);
        if quantity > 0.0 {
          reserved := reserved[c[i].code := quantity];
        }
        i := i + 1;
      }
      assert c[..i] == c;
    }

    /** `refresh`. `fetch` is what the stock call does, and `midFlight` a
        cart whose `reserve` runs while the call is awaited; the result is
        the set of codes asked for, `None` when no call is made. */
    method Refresh(itemCodes: Option<seq<string>>, target: Option<string>, fetch: Fetch,
                   midFlight: Option<seq<CartLine>>, now: int) returns (requested: Option<set<string>>)
      modifies this
      ensures requested == RefreshRequest(old(State()), itemCodes, target)
      ensures reserved == old(reserved)
      ensures State() == RefreshStep(old(State()), itemCodes, target, fetch, now)
    {
      requested := RefreshRequest(State(), itemCodes, target);
      if !Truthy(target) && !Truthy(warehouse) {
        return;
      }
      refreshing := true;
      var snapshot := reserved;
      if requested.None? {
        refreshing := false;
        return;
      }
      if midFlight.Some? {
        Reserve(midFlight);
      }
      match fetch {
        case Fetched(rows) =>
          Update(Some(rows), now);
          reserved := snapshot;
        case FetchFailed =>
          reserved := snapshot;
      }
      refreshing := false;
    }

    method SetWarehouse(target: Option<string>)
      modifies this
      ensures State() == old(State()).(warehouse := target)
    {
      warehouse := target;
    }

    /** `clear`: only the reservations go. */
    method Clear()
      modifies this
      ensures State() == old(State()).(reserved := map[])
    {
      reserved := map[];
    }

    /** `reset`: both maps go. */
    method Reset()
      modifies this
      ensures State() == old(State()).(server := map[], reserved := map[])
    {
      server := map[];
      reserved := map[];
    }
  }
}
