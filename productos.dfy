/**
 * A product of the inventory: a name, a unit price and a quantity in stock,
 * checked when the product is created and whenever price or quantity change.
 */
module Productos {
  import opened Wrappers
  import opened Texto

  /** The `ValueError` cases of the product checks. */
  datatype Error = NombreVacio | PrecioNegativo | CantidadNegativa

  /**
   * The checks of the product constructor, in the order it makes them: the
   * name must not be blank, then the price must not be negative, then the
   * quantity must not be negative. The result is the first check that fails.
   */
  function Validar(nombre: string, precio: real, cantidad: int): (r: Option<Error>)
    ensures r == None <==> Item(nombre, precio, cantidad).Valid()
    ensures r == Some(NombreVacio) <==> EnBlanco(nombre)
    ensures r == Some(PrecioNegativo) <==> !EnBlanco(nombre) && precio < 0.0
    ensures r == Some(CantidadNegativa) <==> !EnBlanco(nombre) && precio >= 0.0 && cantidad < 0
  {
    if Strip(nombre) == [] then Some(NombreVacio)
    else if precio < 0.0 then Some(PrecioNegativo)
    else if cantidad < 0 then Some(CantidadNegativa)
    else None
  }

  /** The state of one product as a value: what the inventory's specification is written over. */
  datatype Item = Item(nombre: string, precio: real, cantidad: int)
  {
    /** The state the constructor's checks admit: a name that is not blank and no negative amount. */
    predicate Valid()
    {
      !EnBlanco(nombre) && precio >= 0.0 && cantidad >= 0
    }

    /** Price times quantity: never negative when neither factor is, zero exactly when one factor is. */
    function Valor(): (r: real)
      ensures precio >= 0.0 && cantidad >= 0 ==> r >= 0.0
      ensures r == 0.0 <==> precio == 0.0 || cantidad == 0
    {
      precio * cantidad as real
    }
  }

  class Producto {
    const nombre: string
    var precio: real
    var cantidad: int

    /** The product's current state. */
    function Estado(): Item
      reads this
    {
      Item(nombre, precio, cantidad)
    }

    /** The object invariant: price and quantity are not negative and the name is not blank. */
    predicate Valid()
      reads this
    {
      Estado().Valid()
    }

    /** Stores the three attributes, once the checks have passed; `Crear` makes the checks. */
    constructor (nombre: string, precio: real, cantidad: int)
      requires Validar(nombre, precio, cantidad) == None
      ensures Valid()
      ensures Estado() == Item(nombre, precio, cantidad)
    {
      this.nombre := nombre;
      this.precio := precio;
      this.cantidad := cantidad;
    }

    /**
     * `Producto(nombre, precio, cantidad)`: raises the first failing check, or
     * returns a new product holding the name exactly as given (neither
     * stripped nor lower-cased), the price and the quantity.
     */
    static method Crear(nombre: string, precio: real, cantidad: int) returns (r: Result<Producto, Error>)
      ensures r.Failure? <==> Validar(nombre, precio, cantidad).Some?
      ensures r.Failure? ==> r.error == Validar(nombre, precio, cantidad).value
      ensures r.Success? ==> fresh(r.value) && r.value.Valid() && r.value.Estado() == Item(nombre, precio, cantidad)
    {
      var error := Validar(nombre, precio, cantidad);
      if error.Some? {
        return Failure(error.value);
      }
      var producto := new Producto(nombre, precio, cantidad);
      return Success(producto);
    }

    /** Sets the price to a non-negative `nuevoPrecio`; a negative one raises and changes nothing. */
    method ActualizarPrecio(nuevoPrecio: real) returns (r: Result<bool, Error>)
      modifies this`precio
      ensures r == if nuevoPrecio < 0.0 then Failure(PrecioNegativo) else Success(true)
      ensures Estado() == if r.Success? then old(Estado()).(precio := nuevoPrecio) else old(Estado())
      ensures old(Valid()) ==> Valid()
    {
      if nuevoPrecio < 0.0 {
        return Failure(PrecioNegativo);
      }
      precio := nuevoPrecio;
      return Success(true);
    }

    /** Sets the quantity to a non-negative `nuevaCantidad`; a negative one raises and changes nothing. */
    method ActualizarCantidad(nuevaCantidad: int) returns (r: Result<bool, Error>)
      modifies this`cantidad
      ensures r == if nuevaCantidad < 0 then Failure(CantidadNegativa) else Success(true)
      ensures Estado() == if r.Success? then old(Estado()).(cantidad := nuevaCantidad) else old(Estado())
      ensures old(Valid()) ==> Valid()
    {
      if nuevaCantidad < 0 {
        return Failure(CantidadNegativa);
      }
      cantidad := nuevaCantidad;
      return Success(true);
    }

    /** The product's total value, price times quantity; it reads the product and changes nothing. */
    function CalcularValorTotal(): (r: real)
      reads this
      ensures Valid() ==> r >= 0.0
    {
      Estado().Valor()
    }
  }
}
