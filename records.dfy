/**
 * The shapes stored under `store.clientes`: clients, each owning an ordered
 * list of eyewear orders ("anteojos"), newest first.
 *
 * Data read back from storage may lack fields. A `codigo` that is not a
 * number is `None`, an `anteojos` that is not an array is `None`, and a
 * missing or empty string field (`estado`, `telefono`, `dni`) is `""`.
 */
module Records {
  import opened Wrappers
  import opened Text

  /** One eye of a prescription: sphere, cylinder, axis (free text). */
  datatype Ojo = Ojo(esf: string, cil: string, eje: string)

  /** An eyewear order. `precio` and `senia` hold the amounts already converted to numbers. */
  datatype Anteojo = Anteojo(
    id: string,
    codigo: Option<int>,
    fecha: int,
    od: Ojo,
    oi: Ojo,
    marca: string,
    ranurado: bool,
    material: string,
    filtros: string,
    laboratorio: string,
    aclaraciones: string,
    precio: real,
    senia: real,
    estado: string)

  datatype Cliente = Cliente(
    id: string,
    codigo: Option<int>,
    nombre: string,
    apellido: string,
    dni: string,
    telefono: string,
    email: string,
    anteojos: Option<seq<Anteojo>>)

  /** The fields of the client registration form; an absent field is `""`. */
  datatype ClienteForm = ClienteForm(
    nombre: string, apellido: string, dni: string, telefono: string, email: string)

  /**
   * The fields of the order form; an absent field is `""`. `odGrado` and
   * `oiGrado` are the legacy names of the axis fields. `precio` and `senia`
   * are the numbers the form's text converts to, 0 when the field is empty.
   */
  datatype AnteojoForm = AnteojoForm(
    odEsf: string, odCil: string, odEje: string, odGrado: string,
    oiEsf: string, oiCil: string, oiEje: string, oiGrado: string,
    marca: string, ranurado: bool, material: string, filtros: string,
    laboratorio: string, aclaraciones: string, precio: real, senia: real)

  const EnProceso := "en-proceso"
  const EsperaCliente := "espera-cliente"
  /** The legacy status that `migrateEstados` renames. */
  const Terminados := "terminados"
  /** The first code handed out, for clients and for orders alike. */
  const FirstCode := 10000
  /** The default `material` of an order. */
  const DefaultMaterial := "ORG"

  /** `a || b` on strings: `a` unless it is empty. */
  function OrElse(a: string, b: string): string {
    if a != "" then a else b
  }

  /** Every order carries a code below `bound`. */
  predicate AnteojosBelow(os: seq<Anteojo>, bound: int) {
    forall j :: 0 <= j < |os| ==> os[j].codigo.Some? && os[j].codigo.value < bound
  }

  /**
   * The client has a code below `nextCliente`, a list of orders, and every
   * order a code below `nextAnteojo`.
   */
  predicate ClienteBelow(c: Cliente, nextCliente: int, nextAnteojo: int) {
    && c.codigo.Some? && c.codigo.value < nextCliente
    && c.anteojos.Some? && AnteojosBelow(c.anteojos.value, nextAnteojo)
  }

  /** The shape `migrateCodes` leaves behind, with the counters above every code. */
  predicate CodesBelow(cs: seq<Cliente>, nextCliente: int, nextAnteojo: int) {
    forall i :: 0 <= i < |cs| ==> ClienteBelow(cs[i], nextCliente, nextAnteojo)
  }

  /** No two clients share a non-empty trimmed DNI. */
  predicate DniUnique(cs: seq<Cliente>) {
    forall i, j :: 0 <= i < j < |cs| && Trim(cs[i].dni) != "" ==> Trim(cs[i].dni) != Trim(cs[j].dni)
  }

  /** Replacing one client by a client within the bounds keeps the whole list within them. */
  lemma ReplaceKeepsCodes(cs: seq<Cliente>, k: int, c: Cliente, nextCliente: int, nextAnteojo: int)
    requires CodesBelow(cs, nextCliente, nextAnteojo) && 0 <= k < |cs|
    requires ClienteBelow(c, nextCliente, nextAnteojo)
    ensures CodesBelow(cs[k := c], nextCliente, nextAnteojo)
  {
  }

  /** Removing one order keeps the others within the bound. */
  lemma RemoveKeepsBelow(os: seq<Anteojo>, j: int, bound: int)
    requires AnteojosBelow(os, bound) && 0 <= j < |os|
    ensures AnteojosBelow(os[..j] + os[j + 1..], bound)
  {
    var rest := os[..j] + os[j + 1..];
    assert forall t :: 0 <= t < |rest| ==> rest[t] == os[if t < j then t else t + 1];
  }
}
