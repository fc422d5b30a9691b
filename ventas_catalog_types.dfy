/** The catalogue records the sales-rep app receives (ventas/types/catalog.ts):
    products with an optional inventory summary, pages of products, and the
    fixed category table. */
module VentasCatalogTypes {
  import opened Common

  datatype Inventario = Inventario(cantidadTotal: int, cantidadDisponible: int)

  datatype Producto = Producto(
    id: string, codigo: string, nombre: string, precioUnitario: real,
    categoria: string, inventarioResumen: Option<Inventario>)

  datatype Pagination = Pagination(page: int, limit: int, total: int)

  /** `CatalogoResponse`: a page of products, with pagination when the
      server sends it. */
  datatype CatalogoResponse = CatalogoResponse(items: seq<Producto>, pagination: Option<Pagination>)

  /** `CATEGORIAS`, in declaration order: category id and display name. */
  const Categorias: seq<(string, string)> := [
    ("ANTIBIOTICS", "Antibióticos"),
    ("ANTISEPTICS", "Antisépticos"),
    ("MEDICAL_EQUIPMENT", "Equipos Médicos"),
    ("SUPPLIES", "Suministros")
  ]
}
