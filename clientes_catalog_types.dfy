/** The catalogue records the customer app receives (clientes/types/catalog.ts). */
module ClientesCatalogTypes {
  import opened Common

  datatype InventarioResumen = InventarioResumen(cantidadTotal: int, paises: seq<string>)

  datatype Producto = Producto(
    id: string, nombre: string, codigo: string, categoria: string, presentacion: string,
    precioUnitario: real, requisitosAlmacenamiento: string, inventarioResumen: Option<InventarioResumen>)

  /** The page description that accompanies a list of products. */
  datatype Meta = Meta(total: int, page: int, size: int, tookMs: int)

  /** `CatalogoResponse`: a page of products and its description. */
  datatype CatalogoResponse = CatalogoResponse(items: seq<Producto>, meta: Meta)
}
