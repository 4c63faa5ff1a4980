/**
 Rows of the restaurant's order tables and the sum of line subtotals.

 Money is kept as integer cents: prices, subtotals and totals are decimals
 with two places, and a quantity is a whole number, so every amount the
 model handles is an exact multiple of one cent.
 */
module Models {
  import opened Wrappers

  /** An amount of money in cents (a decimal with two places, scaled by 100). */
  type Cents = int

  type PedidoId = nat
  type DetalleId = nat
  type PlatoId = nat
  type MesaId = nat
  type UserId = nat

  /** The three states an order can be in; a new order waits. */
  datatype Estado = Espera | Proceso | Listo

  /** An order: the table and waiter it belongs to, its state and its stored total. */
  datatype Pedido = Pedido(mesa: Option<MesaId>, mesero: Option<UserId>, estado: Estado, total: Cents)

  /** A dish, reduced to the one field the totals depend on. */
  datatype Plato = Plato(precio: Cents)

  /** One line of an order: which order, which dish, how many, and the stored subtotal. */
  datatype DetallePedido = DetallePedido(pedido: PedidoId, plato: PlatoId, cantidad: nat, subtotal: Cents)

  /** The quantity a line gets when none is given. */
  const DefaultCantidad: nat := 1

  /** A fresh order as the field defaults make it: waiting, with total 0. */
  function NewPedido(mesa: Option<MesaId>, mesero: Option<UserId>): (p: Pedido)
    ensures p.estado == Espera && p.total == 0
    ensures p.mesa == mesa && p.mesero == mesero
  {
    Pedido(mesa, mesero, Espera, 0)
  }

  /** A fresh line as the field defaults make it: one unit, subtotal 0 until saved. */
  function NewDetalle(pedido: PedidoId, plato: PlatoId): (d: DetallePedido)
    ensures d.pedido == pedido && d.plato == plato
    ensures d.cantidad == 1 && d.subtotal == 0
  {
    DetallePedido(pedido, plato, DefaultCantidad, 0)
  }

  /** What line `d` adds to the total of order `p`: its subtotal if it belongs to `p`, else nothing. */
  function Share(d: DetallePedido, p: PedidoId): (s: Cents)
  {
    if d.pedido == p then d.subtotal else 0
  }

  /** Some key of a non-empty table; which one is left open. */
  ghost function AnyKey(m: map<DetalleId, DetallePedido>): (k: DetalleId)
    requires m != map[]
    ensures k in m
  {
    var k :| k in m; k
  }

  /**
   The sum of the subtotals of the lines of `detalles` that belong to
   order `p`. The rows are taken in an unspecified order; TotalOfRemove
   shows that the order does not matter.
   */
  ghost function TotalOf(detalles: map<DetalleId, DetallePedido>, p: PedidoId): (total: Cents)
    decreases detalles.Keys
  {
    if detalles == map[] then 0
    else
      var k := AnyKey(detalles);
      Share(detalles[k], p) + TotalOf(detalles - {k}, p)
  }

  /** Any row may be taken out first: the sum is the same. */
  lemma {:induction false} TotalOfRemove(m: map<DetalleId, DetallePedido>, k: DetalleId, p: PedidoId)
    requires k in m
    ensures TotalOf(m, p) == Share(m[k], p) + TotalOf(m - {k}, p)
    decreases m.Keys
  {
    var j := AnyKey(m);
    if j != k {
      TotalOfRemove(m - {j}, k, p);
      TotalOfRemove(m - {k}, j, p);
      assert m - {j} - {k} == m - {k} - {j};
    }
  }

  /**
   Storing row `v` under key `k` replaces whatever was there: the row under
   `k` is counted once, with its new value.
   */
  lemma TotalOfUpdate(m: map<DetalleId, DetallePedido>, k: DetalleId, v: DetallePedido, p: PedidoId)
    ensures TotalOf(m[k := v], p) == TotalOf(m - {k}, p) + Share(v, p)
    ensures k in m ==> TotalOf(m[k := v], p) == TotalOf(m, p) - Share(m[k], p) + Share(v, p)
  {
    TotalOfRemove(m[k := v], k, p);
    assert m[k := v] - {k} == m - {k};
    if k in m {
      TotalOfRemove(m, k, p);
    }
  }

  /** Rows that do not belong to `p` do not change its total. */
  lemma TotalOfUpdateOther(m: map<DetalleId, DetallePedido>, k: DetalleId, v: DetallePedido, p: PedidoId)
    requires v.pedido != p
    requires k in m ==> m[k].pedido != p
    ensures TotalOf(m[k := v], p) == TotalOf(m, p)
  {
    TotalOfUpdate(m, k, v, p);
    if k !in m {
      assert m - {k} == m;
    }
  }

  /** An order no row belongs to has total 0. */
  lemma {:induction false} TotalOfNoLines(m: map<DetalleId, DetallePedido>, p: PedidoId)
    requires forall k :: k in m ==> m[k].pedido != p
    ensures TotalOf(m, p) == 0
    decreases m.Keys
  {
    if m != map[] {
      var k := AnyKey(m);
      TotalOfNoLines(m - {k}, p);
    }
  }

  /** With no negative subtotal the total is not negative either. */
  lemma {:induction false} TotalOfNonNegative(m: map<DetalleId, DetallePedido>, p: PedidoId)
    requires forall k :: k in m ==> m[k].subtotal >= 0
    ensures TotalOf(m, p) >= 0
    decreases m.Keys
  {
    if m != map[] {
      var k := AnyKey(m);
      TotalOfNonNegative(m - {k}, p);
    }
  }

  /**
   Adds up the subtotals of the rows of order `p`, visiting the rows in
   whatever order they come.
   */
  method SumSubtotals(detalles: map<DetalleId, DetallePedido>, p: PedidoId) returns (total: Cents)
    ensures total == TotalOf(detalles, p)
  {
    total := 0;
    var rest := detalles;
    while rest != map[]
      invariant total + TotalOf(rest, p) == TotalOf(detalles, p)
      decreases rest.Keys
    {
      var k :| k in rest;
      TotalOfRemove(rest, k, p);
      if rest[k].pedido == p {
        total := total + rest[k].subtotal;
      }
      rest := rest - {k};
    }
  }
}
