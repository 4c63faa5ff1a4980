/**
 The database rows the cascade updates in place. Each method's new
 state is tied to the matching function of module Cascade, where the
 properties of the cascade are proved.
 */
module Store {
  import opened Wrappers
  import opened Models
  import opened Cascade

  /** Why saving a line can fail before anything is written. */
  datatype SaveError =
    | MissingPlato   // the line names a dish that is not stored
    | MissingPedido  // the line names an order that is not stored

  class Db {
    var pedidos: map<PedidoId, Pedido>
    var detalles: map<DetalleId, DetallePedido>
    var platos: map<PlatoId, Plato>
    // the next keys the database hands out for new rows
    var nextPedido: PedidoId
    var nextDetalle: DetalleId

    /** The tables as a value. */
    function Snapshot(): (t: Tables)
      reads this
    {
      Tables(pedidos, detalles, platos)
    }

    /** Lines point at stored rows, and the key counters are past every stored key. */
    ghost predicate Valid()
      reads this
    {
      && Linked(Snapshot())
      && (forall p :: p in pedidos ==> p < nextPedido)
      && (forall k :: k in detalles ==> k < nextDetalle)
    }

    /** A database holding the given dishes and no orders yet. */
    constructor (platos: map<PlatoId, Plato>)
      ensures Valid() && Consistent(Snapshot())
      ensures Snapshot() == Tables(map[], map[], platos)
      ensures (forall pl :: pl in platos ==> platos[pl].precio >= 0) ==> NonNegative(Snapshot())
    {
      this.pedidos := map[];
      this.detalles := map[];
      this.platos := platos;
      this.nextPedido := 0;
      this.nextDetalle := 0;
    }

    /** Stores a new order with the field defaults under a fresh key. */
    method CreatePedido(mesa: Option<MesaId>, mesero: Option<UserId>) returns (id: PedidoId)
      requires Valid()
      modifies this
      ensures Valid()
      ensures id !in old(pedidos)
      ensures Snapshot() == InsertPedido(old(Snapshot()), id, mesa, mesero)
      ensures pedidos[id].estado == Espera && pedidos[id].total == 0
      ensures old(Consistent(Snapshot())) ==> Consistent(Snapshot())
      ensures old(NonNegative(Snapshot())) ==> NonNegative(Snapshot())
    {
      id := nextPedido;
      ghost var before := Snapshot();
      pedidos := pedidos[id := NewPedido(mesa, mesero)];
      nextPedido := nextPedido + 1;
      if Consistent(before) {
        InsertPedidoConsistent(before, id, mesa, mesero);
      }
      if NonNegative(before) {
        InsertPedidoNonNegative(before, id, mesa, mesero);
      }
    }

    /**
     Pedido.calcular_total: sums the subtotals of the order's lines and
     stores the sum as the order's total.
     */
    method CalcularTotal(p: PedidoId)
      requires Valid() && p in pedidos
      modifies this`pedidos
      ensures Valid()
      ensures Snapshot() == Recompute(old(Snapshot()), p)
      ensures old(NonNegative(Snapshot())) ==> NonNegative(Snapshot())
    {
      ghost var before := Snapshot();
      var total := SumSubtotals(detalles, p);
      pedidos := pedidos[p := pedidos[p].(total := total)];
      if NonNegative(before) {
        RecomputeNonNegative(before, p);
      }
    }

    /**
     DetallePedido.save as written. The subtotal of line `d` becomes the
     dish's price times the quantity; the line is stored under `pk` (an
     update when that key is stored, an insert otherwise) or, without a
     key, under a fresh one; then the order the line names is recomputed.
     */
    method SaveDetalle(pk: Option<DetalleId>, d: DetallePedido) returns (r: Result<DetalleId, SaveError>)
      requires Valid()
      modifies this
      ensures Valid()
      ensures d.plato !in old(platos) ==> r == Err(MissingPlato)
      ensures d.plato in old(platos) && d.pedido !in old(pedidos) ==> r == Err(MissingPedido)
      ensures r.Err? ==> Snapshot() == old(Snapshot())
      ensures r.Ok? <==> d.plato in old(platos) && d.pedido in old(pedidos)
      ensures r.Ok? && pk.Some? ==> r.value == pk.value
      ensures r.Ok? && pk.None? ==> r.value !in old(detalles)
      ensures r.Ok? ==> Snapshot() == SaveLine(old(Snapshot()), r.value, d)
      ensures r.Ok? && old(Consistent(Snapshot()))
              && (r.value in old(detalles) ==> old(detalles)[r.value].pedido == d.pedido)
              ==> Consistent(Snapshot())
      ensures old(NonNegative(Snapshot())) ==> NonNegative(Snapshot())
    {
      if d.plato !in platos {
        return Err(MissingPlato);
      }
      var line := d.(subtotal := platos[d.plato].precio * d.cantidad);
      if d.pedido !in pedidos {
        return Err(MissingPedido);
      }
      ghost var before := Snapshot();
      var id := if pk.Some? then pk.value else nextDetalle;
      detalles := detalles[id := line];
      if id >= nextDetalle {
        nextDetalle := id + 1;
      }
      CalcularTotal(line.pedido);
      r := Ok(id);
      if Consistent(before) && (id in before.detalles ==> before.detalles[id].pedido == d.pedido) {
        SaveLineConsistent(before, id, d);
      }
      if NonNegative(before) {
        SaveLineNonNegative(before, id, d);
      }
    }

    /**
     The corrected DetallePedido.save: as SaveDetalle, and when the
     stored line used to belong to another order, that order's total is
     recomputed too, so every stored total stays the sum of its lines.
     */
    method SaveDetalleFixed(pk: Option<DetalleId>, d: DetallePedido) returns (r: Result<DetalleId, SaveError>)
      requires Valid()
      modifies this
      ensures Valid()
      ensures d.plato !in old(platos) ==> r == Err(MissingPlato)
      ensures d.plato in old(platos) && d.pedido !in old(pedidos) ==> r == Err(MissingPedido)
      ensures r.Err? ==> Snapshot() == old(Snapshot())
      ensures r.Ok? <==> d.plato in old(platos) && d.pedido in old(pedidos)
      ensures r.Ok? && pk.Some? ==> r.value == pk.value
      ensures r.Ok? && pk.None? ==> r.value !in old(detalles)
      ensures r.Ok? ==> Snapshot() == SaveLineFixed(old(Snapshot()), r.value, d)
      ensures old(Consistent(Snapshot())) ==> Consistent(Snapshot())
      ensures old(NonNegative(Snapshot())) ==> NonNegative(Snapshot())
    {
      ghost var before := Snapshot();
      var previous: Option<PedidoId> := None;
      if pk.Some? && pk.value in detalles {
        previous := Some(detalles[pk.value].pedido);
      }
      r := SaveDetalle(pk, d);
      if r.Ok? && previous.Some? && previous.value != d.pedido {
        CalcularTotal(previous.value);
      }
      if r.Ok? && Consistent(before) {
        SaveLineFixedConsistent(before, r.value, d);
      }
      if r.Ok? && NonNegative(before) {
        SaveLineFixedNonNegative(before, r.value, d);
      }
    }
  }
}
