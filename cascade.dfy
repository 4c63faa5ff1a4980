/**
 The order-total cascade as functions on a snapshot of the tables:
 recomputing an order's total, saving an order line (which recomputes
 its order), and inserting a fresh order. The store in Store.Db is
 proved to move from snapshot to snapshot exactly as these say.
 */
module Cascade {
  import opened Wrappers
  import opened Models

  /** A snapshot of the three tables the cascade touches. */
  datatype Tables = Tables(
    pedidos: map<PedidoId, Pedido>,
    detalles: map<DetalleId, DetallePedido>,
    platos: map<PlatoId, Plato>)

  /** Referential integrity: every line points at a stored order and a stored dish. */
  ghost predicate Linked(t: Tables)
  {
    forall k :: k in t.detalles ==> t.detalles[k].pedido in t.pedidos && t.detalles[k].plato in t.platos
  }

  /** The invariant the cascade is meant to keep: every stored total is the sum of its lines' subtotals. */
  ghost predicate Consistent(t: Tables)
  {
    forall p :: p in t.pedidos ==> t.pedidos[p].total == TotalOf(t.detalles, p)
  }

  /** No negative price, subtotal or total anywhere. */
  ghost predicate NonNegative(t: Tables)
  {
    && (forall d :: d in t.platos ==> t.platos[d].precio >= 0)
    && (forall k :: k in t.detalles ==> t.detalles[k].subtotal >= 0)
    && (forall p :: p in t.pedidos ==> t.pedidos[p].total >= 0)
  }

  /** The subtotal a line gets when it is saved: the dish's current price times the quantity. */
  function LineSubtotal(t: Tables, d: DetallePedido): (r: Cents)
    requires d.plato in t.platos
    ensures d.cantidad == 0 ==> r == 0
    ensures d.cantidad == 1 ==> r == t.platos[d.plato].precio
    ensures t.platos[d.plato].precio >= 0 ==> r >= 0
  {
    t.platos[d.plato].precio * d.cantidad
  }

  /**
   Pedido.calcular_total: the total of order `p` becomes the sum of the
   subtotals of its lines; nothing else in the tables changes.
   */
  ghost function Recompute(t: Tables, p: PedidoId): (r: Tables)
    requires p in t.pedidos
    ensures r.pedidos.Keys == t.pedidos.Keys
    ensures r.pedidos[p].total == TotalOf(t.detalles, p)
    ensures r.pedidos[p] == t.pedidos[p].(total := r.pedidos[p].total)
    ensures forall q :: q in t.pedidos && q != p ==> r.pedidos[q] == t.pedidos[q]
    ensures r.detalles == t.detalles && r.platos == t.platos
  {
    t.(pedidos := t.pedidos[p := t.pedidos[p].(total := TotalOf(t.detalles, p))])
  }

  /**
   DetallePedido.save as written: the line's subtotal is set from the
   dish price, the line is stored under `id` (replacing any row with that
   key), and then the order the line now names is recomputed.
   */
  ghost function SaveLine(t: Tables, id: DetalleId, d: DetallePedido): (r: Tables)
    requires d.pedido in t.pedidos && d.plato in t.platos
    ensures r.detalles.Keys == t.detalles.Keys + {id}
    ensures r.detalles[id].subtotal == LineSubtotal(t, d)
    ensures r.pedidos.Keys == t.pedidos.Keys
    ensures r.pedidos[d.pedido].total == TotalOf(r.detalles, d.pedido)
  {
    var line := d.(subtotal := LineSubtotal(t, d));
    Recompute(t.(detalles := t.detalles[id := line]), d.pedido)
  }

  /**
   The corrected save: as SaveLine, and when the row under `id` used to
   belong to a different order, that order is recomputed as well.
   */
  ghost function SaveLineFixed(t: Tables, id: DetalleId, d: DetallePedido): (r: Tables)
    requires Linked(t)
    requires d.pedido in t.pedidos && d.plato in t.platos
    ensures r.detalles == SaveLine(t, id, d).detalles && r.platos == t.platos
    ensures r.pedidos.Keys == t.pedidos.Keys
    ensures r.pedidos[d.pedido].total == TotalOf(r.detalles, d.pedido)
    ensures id in t.detalles ==>
      r.pedidos[t.detalles[id].pedido].total == TotalOf(r.detalles, t.detalles[id].pedido)
    ensures forall q :: q in t.pedidos ==> r.pedidos[q] == t.pedidos[q].(total := r.pedidos[q].total)
    ensures forall q :: (q in t.pedidos && q != d.pedido && (id in t.detalles ==> q != t.detalles[id].pedido)) ==> r.pedidos[q] == t.pedidos[q]
  {
    var s := SaveLine(t, id, d);
    if id in t.detalles && t.detalles[id].pedido != d.pedido then
      Recompute(s, t.detalles[id].pedido)
    else
      s
  }

  /** Storing a fresh order under an unused key, with the field defaults. */
  function InsertPedido(t: Tables, id: PedidoId, mesa: Option<MesaId>, mesero: Option<UserId>): (r: Tables)
    requires id !in t.pedidos
    ensures r.pedidos.Keys == t.pedidos.Keys + {id}
    ensures r.pedidos[id].estado == Espera && r.pedidos[id].total == 0
    ensures r.pedidos[id].mesa == mesa && r.pedidos[id].mesero == mesero
    ensures forall q :: q in t.pedidos ==> r.pedidos[q] == t.pedidos[q]
    ensures r.detalles == t.detalles && r.platos == t.platos
  {
    t.(pedidos := t.pedidos[id := NewPedido(mesa, mesero)])
  }

  // ---------------------------------------------------------------------
  // calcular_total

  /** An order without lines gets total 0, the same value as the field default. */
  lemma RecomputeNoLines(t: Tables, p: PedidoId)
    requires p in t.pedidos
    requires forall k :: k in t.detalles ==> t.detalles[k].pedido != p
    ensures Recompute(t, p).pedidos[p].total == 0 == NewPedido(None, None).total
  {
    TotalOfNoLines(t.detalles, p);
  }

  /** Recomputing twice with no line change in between gives the same tables as once. */
  lemma RecomputeIdempotent(t: Tables, p: PedidoId)
    requires p in t.pedidos
    ensures Recompute(Recompute(t, p), p) == Recompute(t, p)
  {
  }

  /** On consistent tables recomputing changes nothing, and it keeps them consistent. */
  lemma RecomputeConsistent(t: Tables, p: PedidoId)
    requires p in t.pedidos
    ensures Consistent(t) ==> Recompute(t, p) == t
    ensures Consistent(t) ==> Consistent(Recompute(t, p))
    ensures Linked(t) ==> Linked(Recompute(t, p))
  {
  }

  /** With no negative subtotal, recomputing keeps every total non-negative. */
  lemma RecomputeNonNegative(t: Tables, p: PedidoId)
    requires p in t.pedidos
    requires NonNegative(t)
    ensures NonNegative(Recompute(t, p))
  {
    TotalOfNonNegative(t.detalles, p);
  }

  // ---------------------------------------------------------------------
  // DetallePedido.save

  /**
   The saved line carries the caller's order, dish and quantity, and its
   subtotal is the dish's current price times the quantity; every other
   line is left as it was.
   */
  lemma SaveLineStoresLine(t: Tables, id: DetalleId, d: DetallePedido)
    requires d.pedido in t.pedidos && d.plato in t.platos
    ensures var r := SaveLine(t, id, d);
      && r.detalles.Keys == t.detalles.Keys + {id}
      && r.detalles[id].subtotal == t.platos[d.plato].precio * d.cantidad
      && r.detalles[id] == d.(subtotal := r.detalles[id].subtotal)
      && (forall k :: k in t.detalles && k != id ==> r.detalles[k] == t.detalles[k])
      && r.platos == t.platos
  {
  }

  /**
   After the save, the line's order has as total the sum of the subtotals
   of its other lines plus the new subtotal: a row that existed under `id`
   is replaced, never counted alongside the new one.
   */
  lemma SaveLineTotal(t: Tables, id: DetalleId, d: DetallePedido)
    requires d.pedido in t.pedidos && d.plato in t.platos
    ensures var r := SaveLine(t, id, d);
      && r.pedidos[d.pedido].total == TotalOf(r.detalles, d.pedido)
      && r.pedidos[d.pedido].total == TotalOf(t.detalles - {id}, d.pedido) + LineSubtotal(t, d)
  {
    var line := d.(subtotal := LineSubtotal(t, d));
    TotalOfUpdate(t.detalles, id, line, d.pedido);
  }

  /**
   Re-saving a line of a consistent order moves the order's total by the
   difference between the new and the old subtotal.
   */
  lemma SaveLineResave(t: Tables, id: DetalleId, d: DetallePedido)
    requires d.pedido in t.pedidos && d.plato in t.platos
    requires Consistent(t)
    requires id in t.detalles && t.detalles[id].pedido == d.pedido
    ensures SaveLine(t, id, d).pedidos[d.pedido].total
         == t.pedidos[d.pedido].total - t.detalles[id].subtotal + LineSubtotal(t, d)
  {
    var line := d.(subtotal := LineSubtotal(t, d));
    TotalOfUpdate(t.detalles, id, line, d.pedido);
  }

  /** Saving the same line twice leaves the tables as saving it once. */
  lemma SaveLineTwice(t: Tables, id: DetalleId, d: DetallePedido)
    requires d.pedido in t.pedidos && d.plato in t.platos
    ensures SaveLine(SaveLine(t, id, d), id, d) == SaveLine(t, id, d)
  {
    var s := SaveLine(t, id, d);
    assert s.detalles[id := d.(subtotal := LineSubtotal(s, d))] == s.detalles;
  }

  /**
   Saving a line of one order leaves every other order exactly as it
   was, and the line's own order keeps its state, table and waiter.
   */
  lemma SaveLineOtherOrders(t: Tables, id: DetalleId, d: DetallePedido)
    requires d.pedido in t.pedidos && d.plato in t.platos
    ensures var r := SaveLine(t, id, d);
      && r.pedidos.Keys == t.pedidos.Keys
      && (forall q :: q in t.pedidos && q != d.pedido ==> r.pedidos[q] == t.pedidos[q])
      && r.pedidos[d.pedido].estado == t.pedidos[d.pedido].estado
      && r.pedidos[d.pedido].mesa == t.pedidos[d.pedido].mesa
      && r.pedidos[d.pedido].mesero == t.pedidos[d.pedido].mesero
  {
  }

  /** A line saved from the field defaults (one unit) costs exactly the dish's price. */
  lemma SaveDefaultLine(t: Tables, id: DetalleId, p: PedidoId, pl: PlatoId)
    requires p in t.pedidos && pl in t.platos
    ensures SaveLine(t, id, NewDetalle(p, pl)).detalles[id].subtotal == t.platos[pl].precio
  {
  }

  /** Saving keeps every line pointing at a stored order and a stored dish. */
  lemma SaveLineLinked(t: Tables, id: DetalleId, d: DetallePedido)
    requires d.pedido in t.pedidos && d.plato in t.platos
    requires Linked(t)
    ensures Linked(SaveLine(t, id, d))
  {
  }

  /**
   Saving a new line, or re-saving a line without moving it to another
   order, keeps every stored total equal to the sum of its lines.
   */
  lemma SaveLineConsistent(t: Tables, id: DetalleId, d: DetallePedido)
    requires d.pedido in t.pedidos && d.plato in t.platos
    requires Consistent(t)
    requires id in t.detalles ==> t.detalles[id].pedido == d.pedido
    ensures Consistent(SaveLine(t, id, d))
  {
    var r := SaveLine(t, id, d);
    var line := d.(subtotal := LineSubtotal(t, d));
    SaveLineTotal(t, id, d);
    forall q | q in r.pedidos
      ensures r.pedidos[q].total == TotalOf(r.detalles, q)
    {
      if q != d.pedido {
        TotalOfUpdateOther(t.detalles, id, line, q);
      }
    }
  }

  /**
   With no negative price, saving keeps every subtotal and every total
   non-negative, since quantities are never negative.
   */
  lemma SaveLineNonNegative(t: Tables, id: DetalleId, d: DetallePedido)
    requires d.pedido in t.pedidos && d.plato in t.platos
    requires NonNegative(t)
    ensures NonNegative(SaveLine(t, id, d))
  {
    var line := d.(subtotal := LineSubtotal(t, d));
    RecomputeNonNegative(t.(detalles := t.detalles[id := line]), d.pedido);
  }

  /**
   The total cannot keep the line it lost: re-saving a line under another
   order leaves the old order's stored total unchanged although the line
   is gone from it.
   */
  lemma SaveLineMovedLineStale()
    ensures var t := Tables(
        map[1 := NewPedido(None, None).(total := 500), 2 := NewPedido(None, None)],
        map[0 := DetallePedido(1, 7, 1, 500)],
        map[7 := Plato(500)]);
      && Linked(t) && Consistent(t)
      && var r := SaveLine(t, 0, DetallePedido(2, 7, 1, 500));
      && r.pedidos[1].total == 500
      && TotalOf(r.detalles, 1) == 0
      && !Consistent(r)
  {
    var t := Tables(
      map[1 := NewPedido(None, None).(total := 500), 2 := NewPedido(None, None)],
      map[0 := DetallePedido(1, 7, 1, 500)],
      map[7 := Plato(500)]);
    TotalOfRemove(t.detalles, 0, 1);
    TotalOfRemove(t.detalles, 0, 2);
    assert t.detalles - {0} == map[];
    var r := SaveLine(t, 0, DetallePedido(2, 7, 1, 500));
    TotalOfNoLines(r.detalles, 1);
  }

  /**
   The corrected save keeps every stored total equal to the sum of its
   lines whatever line is saved, including one moved to another order.
   */
  lemma SaveLineFixedConsistent(t: Tables, id: DetalleId, d: DetallePedido)
    requires d.pedido in t.pedidos && d.plato in t.platos
    requires Linked(t) && Consistent(t)
    ensures Linked(SaveLineFixed(t, id, d))
    ensures Consistent(SaveLineFixed(t, id, d))
  {
    var s := SaveLine(t, id, d);
    var line := d.(subtotal := LineSubtotal(t, d));
    SaveLineTotal(t, id, d);
    if id in t.detalles && t.detalles[id].pedido != d.pedido {
      var o := t.detalles[id].pedido;
      var r := Recompute(s, o);
      forall q | q in r.pedidos
        ensures r.pedidos[q].total == TotalOf(r.detalles, q)
      {
        if q != d.pedido && q != o {
          TotalOfUpdateOther(t.detalles, id, line, q);
        }
      }
    } else {
      SaveLineConsistent(t, id, d);
    }
  }

  /** With no negative price, the corrected save keeps every subtotal and every total non-negative. */
  lemma SaveLineFixedNonNegative(t: Tables, id: DetalleId, d: DetallePedido)
    requires d.pedido in t.pedidos && d.plato in t.platos
    requires Linked(t) && NonNegative(t)
    ensures NonNegative(SaveLineFixed(t, id, d))
  {
    SaveLineNonNegative(t, id, d);
    if id in t.detalles && t.detalles[id].pedido != d.pedido {
      RecomputeNonNegative(SaveLine(t, id, d), t.detalles[id].pedido);
    }
  }

  /** Where the saved line stays in its order, the corrected save is the save as written. */
  lemma SaveLineFixedAgrees(t: Tables, id: DetalleId, d: DetallePedido)
    requires d.pedido in t.pedidos && d.plato in t.platos
    requires Linked(t)
    requires id in t.detalles ==> t.detalles[id].pedido == d.pedido
    ensures SaveLineFixed(t, id, d) == SaveLine(t, id, d)
  {
  }

  // ---------------------------------------------------------------------
  // a fresh order

  /**
   A fresh order waits with total 0, which is what calcular_total gives an
   order without lines; inserting it keeps the tables linked and consistent.
   */
  lemma InsertPedidoConsistent(t: Tables, id: PedidoId, mesa: Option<MesaId>, mesero: Option<UserId>)
    requires id !in t.pedidos
    requires Linked(t) && Consistent(t)
    ensures var r := InsertPedido(t, id, mesa, mesero);
      && r.pedidos[id].estado == Espera
      && r.pedidos[id].total == 0 == TotalOf(r.detalles, id)
      && Linked(r) && Consistent(r)
  {
    TotalOfNoLines(t.detalles, id);
  }

  /** A fresh order's total 0 keeps every total non-negative. */
  lemma InsertPedidoNonNegative(t: Tables, id: PedidoId, mesa: Option<MesaId>, mesero: Option<UserId>)
    requires id !in t.pedidos
    requires NonNegative(t)
    ensures NonNegative(InsertPedido(t, id, mesa, mesero))
  {
  }
}
