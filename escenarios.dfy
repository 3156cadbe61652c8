/**
 * Worked scenarios of the inventory, stated with the operations' own
 * contracts: the case-insensitive search, the total value of two products,
 * and a duplicate that merges into the stored entry.
 */
module Escenarios {
  import opened Wrappers
  import opened Texto
  import opened Productos
  import opened Inventarios

  /** "mouse", "Mouse" and "MOUSE" find the same entry in any inventory. */
  lemma EjemploMouse(items: seq<Item>)
    ensures Posicion(items, "mouse") == Posicion(items, "Mouse") == Posicion(items, "MOUSE")
  {
    assert Lower("mouse") == Lower("Mouse") == Lower("MOUSE") == "mouse";
    PosicionIgnoraMayusculas(items, "mouse", "Mouse");
    PosicionIgnoraMayusculas(items, "Mouse", "MOUSE");
  }

  /** Products A (10.0 each, 2 units) and B (5.0 each, 4 units) are worth 40.0 together. */
  lemma EjemploValorTotal()
    ensures ValorTotal([Item("A", 10.0, 2), Item("B", 5.0, 4)]) == 40.0
  {
    assert [Item("A", 10.0, 2), Item("B", 5.0, 4)][..1] == [Item("A", 10.0, 2)];
    assert [Item("A", 10.0, 2)][..0] == [];
  }

  /** Adding ("Laptop", 1200.50, 5) to an empty inventory inserts it. */
  lemma EjemploLaptopAlta()
    ensures Agregar([], Item("Laptop", 1200.50, 5)) == ([Item("Laptop", 1200.50, 5)], true)
  {
    AgregarNuevo([], Item("Laptop", 1200.50, 5));
    assert [] + [Item("Laptop", 1200.50, 5)] == [Item("Laptop", 1200.50, 5)];
  }

  /** Adding ("Laptop", 1200.50, 3) to that inventory merges it: one entry of 8 units. */
  lemma EjemploLaptopFusion()
    ensures Agregar([Item("Laptop", 1200.50, 5)], Item("Laptop", 1200.50, 3)) == ([Item("Laptop", 1200.50, 8)], false)
  {
    var uno := [Item("Laptop", 1200.50, 5)];
    assert MismoNombre("Laptop", "Laptop");
    PrimeraCoincidencia(uno, "Laptop", 0);
    AgregarDuplicado(uno, Item("Laptop", 1200.50, 3), 0);
    assert uno[0 := uno[0].(cantidad := 5 + 3)] == [Item("Laptop", 1200.50, 8)];
  }

  /** The merged entry is worth 9604.00. */
  lemma EjemploLaptopValor()
    ensures ValorTotal([Item("Laptop", 1200.50, 8)]) == 9604.0
  {
    assert [Item("Laptop", 1200.50, 8)][..0] == [];
  }

  /** "Laptop" is not blank, so both Laptop products pass the checks. */
  lemma LaptopValido()
    ensures Validar("Laptop", 1200.50, 5) == None && Validar("Laptop", 1200.50, 3) == None
  {
    assert !IsSpace("Laptop"[0]);
  }

  /** The Laptop scenario run through the classes: the first product goes into an empty inventory. */
  method EscenarioLaptopAlta() returns (inventario: Inventario)
    ensures inventario.Valid() && inventario.Contenido() == [Item("Laptop", 1200.50, 5)]
  {
    inventario := new Inventario();
    LaptopValido();
    var r := Producto.Crear("Laptop", 1200.50, 5);
    var nuevo := inventario.AgregarProducto(r.value);
    EjemploLaptopAlta();
  }

  /** A second Laptop of 3 units merges into the stored entry: one entry of 8 units, and the call reports False. */
  method EscenarioLaptopFusion(inventario: Inventario, laptop: Producto)
    requires inventario.Valid() && inventario.Contenido() == [Item("Laptop", 1200.50, 5)]
    requires laptop.Valid() && laptop.Estado() == Item("Laptop", 1200.50, 3)
    modifies inventario, inventario.productos
    ensures inventario.Valid() && inventario.Contenido() == [Item("Laptop", 1200.50, 8)]
  {
    var nuevo := inventario.AgregarProducto(laptop);
    EjemploLaptopFusion();
    assert !nuevo;
  }

  /** The merged Laptop entry is worth 9604.00, and a negative price is refused without touching it. */
  method EscenarioLaptopValor(inventario: Inventario) returns (total: real, negativo: Result<bool, Error>)
    requires inventario.Valid() && inventario.Contenido() == [Item("Laptop", 1200.50, 8)]
    modifies inventario.productos
    ensures total == 9604.0 && negativo == Failure(PrecioNegativo)
    ensures inventario.Valid() && inventario.Contenido() == [Item("Laptop", 1200.50, 8)]
  {
    EjemploLaptopValor();
    total := inventario.CalcularValorInventario();
    var laptop := inventario.productos[0];
    negativo := laptop.ActualizarPrecio(-1.0);
    assert inventario.Contenido() == [laptop.Estado()];
  }

  /**
   * The menu's "update quantity" option followed by its "add product" option:
   * a product found by name gets a new quantity directly, and a product is
   * then added. The inventory stays valid throughout, whether the update is
   * accepted or refused, and even when the added product is the updated one.
   */
  method EscenarioMenu(inventario: Inventario, nombre: string, nuevaCantidad: int, producto: Producto)
    returns (agregado: bool)
    requires inventario.Valid() && producto.Valid()
    modifies inventario, inventario.productos
    ensures inventario.Valid()
  {
    var encontrado := inventario.BuscarProducto(nombre);
    if encontrado != null {
      ghost var k := Posicion(inventario.Contenido(), nombre).value;
      var r := encontrado.ActualizarCantidad(nuevaCantidad);
      inventario.ValidTrasActualizar(k);
    }
    agregado := inventario.AgregarProducto(producto);
  }
}
