# A basic inventory system, modelled in Dafny

The system keeps an inventory of products. A product (`Producto`) has a
name, a unit price and a quantity in stock. It is checked when it is
created: the name must not be blank, and neither the price nor the quantity
may be negative. The same checks guard its two setters. An inventory
(`Inventario`) keeps its products in the order they were first added:

- a product whose name matches a stored one, ignoring case, is merged into
  that entry: the quantities are added and the stored price is kept;
- any other product is appended at the end;
- a search by name returns the first product whose name matches, ignoring
  case;
- the inventory's value is the sum of price times quantity over all its
  products.

The project has five modules:

- `Wrappers` holds `Option` and `Result`.
- `Texto` holds the two string operations the system relies on: Python's
  `str.strip()` (`Strip`, over the white space of `str.isspace`) and
  `str.lower()` (`Lower`). It also holds the name comparison built on them
  (`MismoNombre`).
- `Productos` holds the class `Producto`, its state as a value (`Item`), and
  the product checks (`Validar`). The error cases are the datatype `Error`,
  in the order the constructor makes its checks.
- `Inventarios` states the inventory on values: `Posicion` is the search,
  `Agregar` is the add, `ValorTotal` is the inventory's value, and
  `Consistente` is the invariant. The class `Inventario` implements these
  operations over `Producto` objects, and its methods are proved against
  that statement through `Contenido()`, the list of the stored products'
  states. The lemmas prove:
  - the invariant holds initially and `Agregar` keeps it;
  - where an add leaves the search and the total;
  - that the search ignores case.
- `Escenarios` works through concrete cases, using the operations' definitions and contracts.
  It also runs the menu's update-then-add sequence through the classes.

## Model

| member | source | states |
|---|---|---|
| Productos.Validar | sistema_inventario.py:24-37 | The first failing check, in the source's order: blank name, then negative price, then negative quantity. No error exactly when the product state is valid, and each error exactly in its own case. |
| Productos.Item.Valor | sistema_inventario.py:81-88 | Price times quantity. It is never negative when both factors are non-negative, and zero exactly when one factor is zero. |
| Productos.Producto.constructor | sistema_inventario.py:39-41 | Once the checks pass, the new product holds the name as given, the price and the quantity, and is valid. |
| Productos.Producto.Crear | sistema_inventario.py:11-41 | Product creation fails exactly when a check fails, with that check's error. Otherwise it returns a fresh, valid product whose name is exactly the argument (neither stripped nor lower-cased). |
| Productos.Producto.ActualizarPrecio | sistema_inventario.py:43-60 | A negative price fails with `PrecioNegativo` and changes nothing. Otherwise it sets the price, leaves name and quantity alone, and returns `true`. Validity is preserved. |
| Productos.Producto.ActualizarCantidad | sistema_inventario.py:62-79 | A negative quantity fails with `CantidadNegativa` and changes nothing. Otherwise it sets the quantity, leaves name and price alone, and returns `true`. Validity is preserved. |
| Productos.Producto.CalcularValorTotal | sistema_inventario.py:81-88 | The product's value reads only the product, and is never negative for a valid product. |
| Texto.Strip | sistema_inventario.py:26 | The stripped name is empty exactly when every character is white space. Otherwise it begins and ends with a character that is not white space. |
| Texto.TrimStart | sistema_inventario.py:26 | A suffix of the input: everything dropped is white space, and what remains does not start with white space. |
| Texto.TrimEnd | sistema_inventario.py:26 | A prefix of the input: everything dropped is white space, and what remains does not end with white space. |
| Texto.LowerChar | sistema_inventario.py:149 | An upper-case letter moves 32 code points up to its lower-case form; every other character is unchanged; the result is never upper case. |
| Texto.Lower | sistema_inventario.py:149 | Same length as the input, lower-cased character by character. |
| Texto.LowerIdempotent | sistema_inventario.py:149 | Lower-casing twice gives the same result as lower-casing once. |
| Texto.MismoNombre | sistema_inventario.py:149 | Two names are the same name when their lower-cased forms are equal. This is the comparison the search makes; the lemmas below prove what it identifies. |
| Texto.MismoNombreMinusculas | sistema_inventario.py:149 | Every name is the same name as its lower-cased form, so a query typed in lower case finds a name stored in any case. |
| Texto.MismoNombreIgnoraMayusculas | sistema_inventario.py:149 | Two names that differ only in the case of some letters are the same name. |
| Inventarios.Posicion | sistema_inventario.py:148-151 | `None` exactly when no stored name matches ignoring case. Otherwise an index whose name matches, with no match before it. |
| Inventarios.Agregar | sistema_inventario.py:125-133 | Answers `true` exactly when no stored name matches the new one. A merge (`false`) keeps the length. |
| Inventarios.AgregarNuevo | sistema_inventario.py:130-133 | With no match, the new item is appended at the end and the answer is `true`. |
| Inventarios.AgregarDuplicado | sistema_inventario.py:125-129 | When the first match is at `k`, only entry `k` changes: its quantity becomes the sum of both, and its name and price are kept. The answer is `false`. |
| Inventarios.AgregarConservaConsistencia | sistema_inventario.py:111-133 | Adding a valid product to a consistent inventory keeps it consistent: every product stays valid and no two names match ignoring case. |
| Inventarios.AgregarConservaOrden | sistema_inventario.py:125-133 | Adding never reorders or renames the stored products, and never changes their prices. A new product lands at the end, unchanged. |
| Inventarios.AgregarValorTotal | sistema_inventario.py:125-133 | An append raises the inventory's value by the new product's value. A merge raises it by the new quantity at the stored price. |
| Inventarios.BuscarTrasAgregar | sistema_inventario.py:125-151 | After an append, a search for the new name finds the last entry. After a merge, a search for it finds the same entry as before. |
| Inventarios.UnicaCoincidencia | sistema_inventario.py:148-151 | When names are unique, a search finds the one entry that matches. |
| Inventarios.PrimeraCoincidencia | sistema_inventario.py:148-151 | A match at `k` with none before it is what the search returns. |
| Inventarios.PosicionIgnoraMayusculas | sistema_inventario.py:149 | Queries that are the same name ignoring case find the same entry. |
| Inventarios.PosicionMismosNombres | sistema_inventario.py:148-151 | Changing quantities without changing names does not change what the search finds. |
| Inventarios.ValorTotal | sistema_inventario.py:160-163 | The inventory's value on values: the products' values added from the first to the last, starting from zero. The lemmas below state the totals against it. |
| Inventarios.ValorSumaCantidad | sistema_inventario.py:128 | Adding `c` units to a product raises its value by `c` units at its price. |
| Inventarios.ValorTotalAnexo | sistema_inventario.py:160-163 | Appending an item adds its value to the total. |
| Inventarios.ValorTotalReemplazo | sistema_inventario.py:160-163 | Replacing one item changes the total by the difference of the two values. |
| Inventarios.ValorTotalSumaCantidad | sistema_inventario.py:128 | Adding `c` units to entry `k` raises the total by `c` units at that entry's price. |
| Inventarios.ValorTotalNoNegativo | sistema_inventario.py:153-163 | A list of valid products has a non-negative total. |
| Inventarios.AnexoNombresUnicos | sistema_inventario.py:130-133 | Appending a name that matches no stored one keeps names unique. |
| Inventarios.MismosNombresUnicos | sistema_inventario.py:126-129 | When two lists have the same names item by item and the first has unique names, so does the second. |
| Inventarios.Inventario.constructor | sistema_inventario.py:104-109 | A new inventory is empty, and the invariant holds. |
| Inventarios.Inventario.BuscarProducto | sistema_inventario.py:135-151 | Returns the stored product at `Posicion` of the contents, or `null` (Python's `None`) when no name matches ignoring case. |
| Inventarios.Inventario.AgregarProducto | sistema_inventario.py:111-133 | The new contents and the answer are exactly what `Agregar` gives for the old contents and the product's state. An append adds this very object; a merge keeps the list of objects. The invariant is kept. |
| Inventarios.Inventario.ValidTrasActualizar | sistema_inventario.py:242-268 | Changing the price or quantity of one stored product directly, as the menu does after a search, keeps the inventory valid when that product stays valid. Only that entry of the contents changes. |
| Inventarios.Inventario.ContenidoTrasCambio | sistema_inventario.py:128 | When only the product at `k` changed, only entry `k` of the contents changed. |
| Inventarios.Inventario.CalcularValorInventario | sistema_inventario.py:153-163 | The accumulated total equals `ValorTotal` of the contents. Nothing changes. |
| Inventarios.Inventario.ListarProductos | sistema_inventario.py:165-172 | The stored products, in order, one per entry of the contents. Under the invariant, no product appears twice. |
| Inventarios.Inventario.ProductosDistintos | sistema_inventario.py:126-133 | When the inventory is valid, no product object is stored twice. |
| Escenarios.EjemploMouse | sistema_inventario.py:148-151 | "mouse", "Mouse" and "MOUSE" find the same entry in any inventory. |
| Escenarios.EjemploValorTotal | sistema_inventario.py:153-163 | A (10.00 × 2) and B (5.00 × 4) are worth 40.00 together. |
| Escenarios.EjemploLaptopAlta | sistema_inventario.py:130-133 | Adding Laptop (1200.50 × 5) to an empty inventory appends it and answers `true`. |
| Escenarios.EjemploLaptopFusion | sistema_inventario.py:125-129 | Adding Laptop (1200.50 × 3) then merges it into one entry of 8 units and answers `false`. |
| Escenarios.EjemploLaptopValor | sistema_inventario.py:153-163 | That entry is worth 9604.00. |
| Escenarios.LaptopValido | sistema_inventario.py:24-37 | "Laptop" passes the checks with 1200.50 and either quantity. |
| Escenarios.EscenarioLaptopAlta | sistema_inventario.py:104-133 | The add, through the classes: a new inventory holds one Laptop entry of 5 units. |
| Escenarios.EscenarioLaptopFusion | sistema_inventario.py:111-133 | The merge, through the classes: adding a second Laptop of 3 units leaves one entry of 8 units. |
| Escenarios.EscenarioLaptopValor | sistema_inventario.py:153-163 | Through the classes, the merged Laptop inventory is worth 9604.00. A negative price for it is refused with `PrecioNegativo`, and the contents stay as they were. |
| Escenarios.EscenarioMenu | sistema_inventario.py:214-268 | Searching a product, setting its quantity directly, then adding a product keeps the inventory valid. This holds whether the update is accepted or refused, and when the added product is the updated one. |

## Left out

- The interactive menu and the program's entry point (sistema_inventario.py:175-301) are console I/O around the operations modelled here. Only their update-then-add sequence is modelled, by `EscenarioMenu`.
- `Producto.__str__` (sistema_inventario.py:90-97) is text formatting with two decimals.
- Prices are exact reals, not IEEE doubles, so rounding in `precio * cantidad` and in the running total is not modelled. The source starts its total at the integer `0`, so an empty inventory's value is `0`, not `0.0`; the model returns the real `0.0`.
- The `isinstance` checks and their `TypeError`s (lines 24-25, 29-30, 34-35, 54-55, 73-74, 121-122, 145-146) are not modelled. The Dafny types already fix each argument's type, so there is no `TypeError` path.
- Texto.Lower: covers `str.lower()` only for ASCII and Latin-1 capitals. Other scripts, and characters that lower-case to several characters, are left as they are.
- Texto.Strip: states emptiness and the non-space ends, not that the result is the middle slice of the input. Only the emptiness matters to the source.
- Productos.Producto.constructor: requires the checks to pass. Raising `ValueError` is modelled by `Crear`, which returns the error as a `Failure`.
- Inventarios.Inventario.AgregarProducto: requires the inventory invariant and a valid product. The source makes no such check, but `Crear` returns only valid products; the two setters keep a product valid; `Inventario.constructor` and `AgregarProducto` establish and keep the inventory invariant; and `ValidTrasActualizar` keeps it across a direct update of a stored product. Consequently the quantity update inside a merge always succeeds.
- Inventarios.Inventario.ListarProductos: returns the stored objects, which callers may mutate. Renaming a product that way has no counterpart: names are constant in the model, since the source never reassigns them.
