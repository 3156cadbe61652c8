/**
 * The inventory: products kept in insertion order, with at most one entry
 * per name when case is ignored. The first half states the operations on
 * values (sequences of `Item`); the class `Inventario` implements them over
 * `Producto` objects and is proved against that statement.
 */
module Inventarios {
  import opened Wrappers
  import opened Texto
  import opened Productos

  /** Index of the first item whose name equals `q` ignoring case, or `None` when no item matches. */
  function Posicion(items: seq<Item>, q: string): (r: Option<nat>)
    ensures r.None? <==> forall i {:trigger MismoNombre(items[i].nombre, q)} :: 0 <= i < |items| ==> !MismoNombre(items[i].nombre, q)
    ensures r.Some? ==> r.value < |items| && MismoNombre(items[r.value].nombre, q)
    ensures r.Some? ==> forall j {:trigger MismoNombre(items[j].nombre, q)} :: 0 <= j < r.value ==> !MismoNombre(items[j].nombre, q)
  {
    if items == [] then None
    else if MismoNombre(items[0].nombre, q) then Some(0)
    else match Posicion(items[1..], q)
      case None => None
      case Some(k) => Some(k + 1)
  }

  /** No two items have the same name once lower-cased. */
  predicate NombresUnicos(items: seq<Item>)
  {
    forall i, j :: 0 <= i < j < |items| ==> !MismoNombre(items[i].nombre, items[j].nombre)
  }

  /** The inventory invariant: every item passes the product checks and names are unique. */
  predicate Consistente(items: seq<Item>)
  {
    && (forall i :: 0 <= i < |items| ==> items[i].Valid())
    && NombresUnicos(items)
  }

  /** The sum of the items' values, accumulated from the first item to the last. */
  function ValorTotal(items: seq<Item>): real
  {
    if items == [] then 0.0 else ValorTotal(items[..|items| - 1]) + items[|items| - 1].Valor()
  }

  /**
   * `agregar_producto` on values: when no stored name matches the new one,
   * the new item goes at the end and the answer is `true`; otherwise the
   * first matching entry takes on the sum of both quantities, keeps its own
   * price and name, and the answer is `false`.
   */
  function Agregar(items: seq<Item>, nuevo: Item): (r: (seq<Item>, bool))
    ensures r.1 <==> forall i :: 0 <= i < |items| ==> !MismoNombre(items[i].nombre, nuevo.nombre)
    ensures !r.1 ==> |r.0| == |items|
  {
    match Posicion(items, nuevo.nombre)
    case None => (items + [nuevo], true)
    case Some(k) => (items[k := items[k].(cantidad := items[k].cantidad + nuevo.cantidad)], false)
  }

  /** A name that matches no stored item is appended at the end, and the answer is `true`. */
  lemma AgregarNuevo(items: seq<Item>, nuevo: Item)
    requires forall i :: 0 <= i < |items| ==> !MismoNombre(items[i].nombre, nuevo.nombre)
    ensures Agregar(items, nuevo) == (items + [nuevo], true)
  {
  }

  /**
   * A name whose first match is entry `k` merges into that entry: its
   * quantity becomes the sum of both, its name and price stay, every other
   * entry stays as it was, and the answer is `false`.
   */
  lemma AgregarDuplicado(items: seq<Item>, nuevo: Item, k: nat)
    requires Posicion(items, nuevo.nombre) == Some(k)
    ensures Agregar(items, nuevo) == (items[k := items[k].(cantidad := items[k].cantidad + nuevo.cantidad)], false)
  {
  }

  /** `ValorTotal` grows by the value of an item added at the end. */
  lemma {:induction false} ValorTotalAnexo(items: seq<Item>, it: Item)
    ensures ValorTotal(items + [it]) == ValorTotal(items) + it.Valor()
  {
    assert (items + [it])[..|items|] == items;
  }

  /** Replacing one item changes `ValorTotal` by the difference of the two items' values. */
  lemma {:induction false} ValorTotalReemplazo(items: seq<Item>, k: nat, it: Item)
    requires k < |items|
    ensures ValorTotal(items[k := it]) == ValorTotal(items) - items[k].Valor() + it.Valor()
  {
    var n := |items|;
    var nuevos := items[k := it];
    assert nuevos[..n - 1] == if k == n - 1 then items[..n - 1] else items[..n - 1][k := it];
    if k < n - 1 {
      ValorTotalReemplazo(items[..n - 1], k, it);
    }
  }

  /** Adding `c` units to an item adds the value of `c` units at its price. */
  lemma ValorSumaCantidad(it: Item, c: int)
    ensures it.(cantidad := it.cantidad + c).Valor() == it.Valor() + it.(cantidad := c).Valor()
  {
  }

  /** Adding `c` units to entry `k` adds the value of `c` units at that entry's price to the total. */
  lemma ValorTotalSumaCantidad(items: seq<Item>, k: nat, c: int)
    requires k < |items|
    ensures ValorTotal(items[k := items[k].(cantidad := items[k].cantidad + c)])
            == ValorTotal(items) + items[k].(cantidad := c).Valor()
  {
    ValorTotalReemplazo(items, k, items[k].(cantidad := items[k].cantidad + c));
    ValorSumaCantidad(items[k], c);
  }

  /** The total value of valid items is never negative. */
  lemma {:induction false} ValorTotalNoNegativo(items: seq<Item>)
    requires forall i :: 0 <= i < |items| ==> items[i].Valid()
    ensures ValorTotal(items) >= 0.0
  {
    if items != [] {
      ValorTotalNoNegativo(items[..|items| - 1]);
    }
  }

  /** Queries that are the same name find the same entry: the search ignores case. */
  lemma {:induction false} PosicionIgnoraMayusculas(items: seq<Item>, a: string, b: string)
    requires MismoNombre(a, b)
    ensures Posicion(items, a) == Posicion(items, b)
  {
    if items != [] {
      PosicionIgnoraMayusculas(items[1..], a, b);
    }
  }

  /** With unique names, the entry the search finds is the only one that matches the query. */
  lemma UnicaCoincidencia(items: seq<Item>, q: string, j: nat)
    requires NombresUnicos(items)
    requires j < |items| && MismoNombre(items[j].nombre, q)
    ensures Posicion(items, q) == Some(j)
  {
  }

  /** Sequences with the same names in the same places have the same name relation. */
  lemma MismosNombresUnicos(a: seq<Item>, b: seq<Item>)
    requires |a| == |b| && forall i :: 0 <= i < |a| ==> a[i].nombre == b[i].nombre
    requires NombresUnicos(a)
    ensures NombresUnicos(b)
  {
    forall i, j | 0 <= i < j < |b|
      ensures !MismoNombre(b[i].nombre, b[j].nombre)
    {
      assert a[i].nombre == b[i].nombre && a[j].nombre == b[j].nombre;
    }
  }

  /** A name that matches no stored one keeps the names unique when appended. */
  lemma AnexoNombresUnicos(items: seq<Item>, nuevo: Item)
    requires NombresUnicos(items)
    requires forall i :: 0 <= i < |items| ==> !MismoNombre(items[i].nombre, nuevo.nombre)
    ensures NombresUnicos(items + [nuevo])
  {
    var r := items + [nuevo];
    forall i, j | 0 <= i < j < |r|
      ensures !MismoNombre(r[i].nombre, r[j].nombre)
    {
      if j == |items| {
        assert r[i] == items[i] && r[j] == nuevo;
      } else {
        assert r[i] == items[i] && r[j] == items[j];
      }
    }
  }

  /** Adding keeps the invariant: valid items, no two names equal after lower-casing. */
  lemma AgregarConservaConsistencia(items: seq<Item>, nuevo: Item)
    requires Consistente(items) && nuevo.Valid()
    ensures Consistente(Agregar(items, nuevo).0)
  {
    var p := Posicion(items, nuevo.nombre);
    if p.None? {
      AgregarNuevo(items, nuevo);
      AnexoNombresUnicos(items, nuevo);
      var r := items + [nuevo];
      assert forall i :: 0 <= i < |r| ==> r[i].Valid() by {
        forall i | 0 <= i < |r| ensures r[i].Valid() {
          if i < |items| { assert r[i] == items[i]; }
        }
      }
    } else {
      var k := p.value;
      var fundido := items[k].(cantidad := items[k].cantidad + nuevo.cantidad);
      var r := items[k := fundido];
      AgregarDuplicado(items, nuevo, k);
      MismosNombresUnicos(items, r);
      assert fundido.Valid();
      assert forall i :: 0 <= i < |r| ==> r[i].Valid();
    }
  }

  /**
   * Adding keeps the order: the stored items keep their positions, names and
   * prices, and an inserted item comes last.
   */
  lemma AgregarConservaOrden(items: seq<Item>, nuevo: Item)
    ensures forall i :: 0 <= i < |items| ==> && Agregar(items, nuevo).0[i].nombre == items[i].nombre
                                             && Agregar(items, nuevo).0[i].precio == items[i].precio
    ensures Agregar(items, nuevo).1 ==> Agregar(items, nuevo).0[|items|] == nuevo
  {
    match Posicion(items, nuevo.nombre)
    case None =>
      AgregarNuevo(items, nuevo);
    case Some(k) =>
      AgregarDuplicado(items, nuevo, k);
  }

  /**
   * The change in total value that an addition causes: the new item's value
   * on insertion, and the incoming quantity at the price already stored on
   * a merge (the incoming price is discarded).
   */
  lemma AgregarValorTotal(items: seq<Item>, nuevo: Item)
    ensures Posicion(items, nuevo.nombre) == None ==>
              ValorTotal(Agregar(items, nuevo).0) == ValorTotal(items) + nuevo.Valor()
    ensures Posicion(items, nuevo.nombre).Some? ==>
              var k := Posicion(items, nuevo.nombre).value;
              ValorTotal(Agregar(items, nuevo).0) == ValorTotal(items) + items[k].(cantidad := nuevo.cantidad).Valor()
  {
    match Posicion(items, nuevo.nombre)
    case None =>
      AgregarNuevo(items, nuevo);
      ValorTotalAnexo(items, nuevo);
    case Some(k) =>
      AgregarDuplicado(items, nuevo, k);
      ValorTotalSumaCantidad(items, k, nuevo.cantidad);
  }

  /** The search answers `k` exactly when entry `k` matches and no earlier entry does. */
  lemma PrimeraCoincidencia(items: seq<Item>, q: string, k: nat)
    requires k < |items| && MismoNombre(items[k].nombre, q)
    requires forall j :: 0 <= j < k ==> !MismoNombre(items[j].nombre, q)
    ensures Posicion(items, q) == Some(k)
  {
  }

  /** The search looks only at names: entries with the same names in the same places give the same answer. */
  lemma {:induction false} PosicionMismosNombres(a: seq<Item>, b: seq<Item>, q: string)
    requires |a| == |b| && forall i :: 0 <= i < |a| ==> a[i].nombre == b[i].nombre
    ensures Posicion(a, q) == Posicion(b, q)
  {
    if a != [] {
      assert a[0].nombre == b[0].nombre;
      PosicionMismosNombres(a[1..], b[1..], q);
    }
  }

  /**
   * After an addition the search by the new name finds the entry that holds
   * it: the appended last item, or the merged entry, which keeps its place.
   */
  lemma BuscarTrasAgregar(items: seq<Item>, nuevo: Item)
    ensures Agregar(items, nuevo).1 ==> Posicion(Agregar(items, nuevo).0, nuevo.nombre) == Some(|items|)
    ensures !Agregar(items, nuevo).1 ==> Posicion(Agregar(items, nuevo).0, nuevo.nombre) == Posicion(items, nuevo.nombre)
  {
    var p := Posicion(items, nuevo.nombre);
    if p.None? {
      AgregarNuevo(items, nuevo);
      var r := items + [nuevo];
      assert forall j :: 0 <= j < |items| ==> r[j] == items[j];
      PrimeraCoincidencia(r, nuevo.nombre, |items|);
    } else {
      var k := p.value;
      AgregarDuplicado(items, nuevo, k);
      PosicionMismosNombres(items, items[k := items[k].(cantidad := items[k].cantidad + nuevo.cantidad)], nuevo.nombre);
    }
  }

  /** The inventory: the products in the order they were first added. */
  class Inventario {
    var productos: seq<Producto>

    /** The inventory's state as values: each stored product's state, in order. */
    function Contenido(): (r: seq<Item>)
      reads this, productos
    {
      seq(|productos|, i reads this, productos requires 0 <= i < |productos| => productos[i].Estado())
    }

    /** The object invariant: every product is valid and no two share a name once lower-cased. */
    predicate Valid()
      reads this, productos
    {
      Consistente(Contenido())
    }

    /** A new inventory is empty, so the invariant holds from the start. */
    constructor ()
      ensures Valid() && productos == [] && Contenido() == []
    {
      productos := [];
    }

    /**
     * `buscar_producto`: scans the products in order and returns the first
     * whose name equals `nombre` ignoring case, or `null` (Python's `None`).
     */
    method BuscarProducto(nombre: string) returns (r: Producto?)
      ensures Posicion(Contenido(), nombre).None? ==> r == null
      ensures Posicion(Contenido(), nombre).Some? ==> r == productos[Posicion(Contenido(), nombre).value]
    {
      for i := 0 to |productos|
        invariant forall j :: 0 <= j < i ==> !MismoNombre(Contenido()[j].nombre, nombre)
      {
        if MismoNombre(productos[i].nombre, nombre) {
          PrimeraCoincidencia(Contenido(), nombre, i);
          return productos[i];
        }
      }
      return null;
    }

    /**
     * `agregar_producto`: merges `producto` into the entry with the same name
     * (ignoring case) and answers `false`, or appends it and answers `true`.
     * The new contents are what `Agregar` gives for the old contents, and the
     * invariant is kept.
     */
    method AgregarProducto(producto: Producto) returns (agregado: bool)
      requires Valid() && producto.Valid()
      modifies productos, this`productos
      ensures Valid()
      ensures (Contenido(), agregado) == Agregar(old(Contenido()), old(producto.Estado()))
      ensures agregado ==> productos == old(productos) + [producto]
      ensures !agregado ==> productos == old(productos)
    {
      ghost var antes := Contenido();
      ghost var nuevo := producto.Estado();
      var existente := BuscarProducto(producto.nombre);
      assert Contenido() == antes;
      if existente != null {
        ghost var k := Posicion(antes, nuevo.nombre).value;
        assert forall j :: 0 <= j < |productos| && j != k ==> productos[j] != existente by {
          assert Valid();
          ProductosDistintos();
        }
        var ok := existente.ActualizarCantidad(existente.cantidad + producto.cantidad);
        ContenidoTrasCambio(k);
        assert Contenido() == Agregar(antes, nuevo).0 && !Agregar(antes, nuevo).1 by {
          AgregarDuplicado(antes, nuevo, k);
        }
        agregado := false;
      } else {
        productos := productos + [producto];
        assert Contenido() == Agregar(antes, nuevo).0 && Agregar(antes, nuevo).1 by {
          AgregarNuevo(antes, nuevo);
          assert Contenido() == antes + [nuevo];
        }
        agregado := true;
      }
      assert Valid() by {
        AgregarConservaConsistencia(antes, nuevo);
      }
    }

    /** When only the product at `k` changed state, only entry `k` of the contents changed. */
    twostate lemma ContenidoTrasCambio(k: nat)
      requires k < |productos| && productos == old(productos)
      requires forall j :: 0 <= j < |productos| && j != k ==> productos[j].Estado() == old(productos[j].Estado())
      ensures Contenido() == old(Contenido())[k := productos[k].Estado()]
    {
    }

    /**
     * `calcular_valor_inventario`: adds up the products' total values, in
     * order, starting from zero.
     */
    method CalcularValorInventario() returns (total: real)
      ensures total == ValorTotal(Contenido())
    {
      total := 0.0;
      for i := 0 to |productos|
        invariant total == ValorTotal(Contenido()[..i])
      {
        assert Contenido()[..i + 1] == Contenido()[..i] + [Contenido()[i]];
        ValorTotalAnexo(Contenido()[..i], Contenido()[i]);
        total := total + productos[i].CalcularValorTotal();
      }
      assert Contenido()[..|productos|] == Contenido();
    }

    /**
     * `listar_productos`: the stored products themselves, in insertion order;
     * under the invariant no product is listed twice.
     */
    function ListarProductos(): (r: seq<Producto>)
      reads this, productos
      ensures |r| == |Contenido()| && forall i :: 0 <= i < |r| ==> r[i].Estado() == Contenido()[i]
      ensures Valid() ==> forall i, j :: 0 <= i < j < |r| ==> r[i] != r[j]
    {
      ProductosDistintos();
      productos
    }

    /** Under the invariant no product object is stored twice, since equal objects have equal names. */
    lemma ProductosDistintos()
      ensures Valid() ==> forall i, j :: 0 <= i < j < |productos| ==> productos[i] != productos[j]
    {
      if Valid() {
        forall i, j | 0 <= i < j < |productos| ensures productos[i] != productos[j] {
          assert !MismoNombre(Contenido()[i].nombre, Contenido()[j].nombre);
        }
      }
    }

    /**
     * The invariant survives a price or quantity change made directly on a
     * stored product, as the menu does after a search: when the product at `k`
     * is still valid and no other product changed, the inventory is still valid.
     */
    twostate lemma ValidTrasActualizar(k: nat)
      requires old(Valid())
      requires productos == old(productos) && k < |productos|
      requires forall j :: 0 <= j < |productos| && productos[j] != productos[k] ==> productos[j].Estado() == old(productos[j].Estado())
      requires productos[k].Valid()
      ensures Valid()
      ensures Contenido() == old(Contenido())[k := productos[k].Estado()]
    {
      forall j | 0 <= j < |productos| && j != k
        ensures productos[j].Estado() == old(productos[j].Estado())
      {
        assert !MismoNombre(old(Contenido())[j].nombre, old(Contenido())[k].nombre);
      }
      ContenidoTrasCambio(k);
      MismosNombresUnicos(old(Contenido()), Contenido());
    }
  }
}
