/**
 * The in-memory `store` object and the selection and editing state beside
 * it, with the operations that change them: loading, the three load-time
 * migrations, registering a client, registering, deleting and editing an
 * order, and clearing everything.
 *
 * Persisting to `localStorage` is not modelled: where the source calls
 * `saveStore()` only when something changed, the method reports whether it
 * would. A fresh id (`genId()`), the current date and the answer to a
 * confirmation dialog are parameters.
 */
module StoreModel {
  import opened Wrappers
  import opened Text
  import opened Phone
  import opened Records
  import opened Migrations
  import opened Queries

  /** The messages the store operations throw. */
  datatype Error =
    | MissingName       // "Completa nombre y apellido."
    | DuplicateDni      // "Ya existe un cliente con ese DNI."
    | NoClientSelected  // "Selecciona un cliente primero."

  /** Some client already has `dni` as its trimmed DNI. */
  predicate DniTaken(cs: seq<Cliente>, dni: string) {
    exists i :: 0 <= i < |cs| && Trim(cs[i].dni) == dni
  }

  /** Appending a client whose DNI is blank or unused keeps DNIs unique. */
  lemma AppendKeepsDniUnique(cs: seq<Cliente>, c: Cliente)
    requires Trim(c.dni) == "" || !DniTaken(cs, Trim(c.dni))
    ensures DniUnique(cs) ==> DniUnique(cs + [c])
  {
    var cs' := cs + [c];
    if DniUnique(cs) {
      forall i, j | 0 <= i < j < |cs'| && Trim(cs'[i].dni) != ""
        ensures Trim(cs'[i].dni) != Trim(cs'[j].dni)
      {
        assert cs'[i] == cs[i];
        if j < |cs| {
          assert cs'[j] == cs[j];
        }
      }
    }
  }

  /**
   * Appending a client coded with the current client counter, with an empty
   * order list, keeps every code below the counters once the client counter
   * is bumped; and the new code is not in use.
   */
  lemma AppendKeepsCodes(cs: seq<Cliente>, c: Cliente, nextCli: int, nextAnt: int)
    requires CodesBelow(cs, nextCli, nextAnt) && c.codigo == Some(nextCli) && c.anteojos == Some([])
    ensures CodesBelow(cs + [c], nextCli + 1, nextAnt)
    ensures forall i :: 0 <= i < |cs| ==> cs[i].codigo != c.codigo
  {
    forall i | 0 <= i < |cs| + 1
      ensures ClienteBelow((cs + [c])[i], nextCli + 1, nextAnt)
    {
      if i < |cs| {
        assert (cs + [c])[i] == cs[i];
      }
    }
  }

  /**
   * The client `registrarCliente` builds from the form: it carries the given
   * id and code, has no orders, its text fields are trimmed and its phone is
   * normalised (empty, or `+549` and digits).
   */
  function NuevoCliente(data: ClienteForm, id: string, codigo: int): (r: Cliente)
    ensures r.id == id && r.codigo == Some(codigo) && r.anteojos == Some([])
    ensures Trim(r.nombre) == r.nombre && Trim(r.apellido) == r.apellido
    ensures Trim(r.dni) == r.dni && Trim(r.email) == r.email
    ensures r.nombre == Trim(data.nombre) && r.apellido == Trim(data.apellido)
    ensures r.dni == Trim(data.dni) && r.email == Trim(data.email)
    ensures r.telefono == NormalizeArPhone(data.telefono)
    ensures r.telefono == "" <==> !HasDigit(data.telefono)
    ensures r.telefono != "" ==> "+549" <= r.telefono && AllDigits(r.telefono[4..])
  {
    TrimIdempotent(data.nombre);
    TrimIdempotent(data.apellido);
    TrimIdempotent(data.dni);
    TrimIdempotent(data.email);
    Cliente(id, Some(codigo), Trim(data.nombre), Trim(data.apellido), Trim(data.dni),
            NormalizeArPhone(data.telefono), Trim(data.email), Some([]))
  }

  /**
   * Appending the client built from a form whose trimmed DNI is blank or
   * unused, coded with the client counter, keeps every code below the bumped
   * counter, uses a new code, and keeps unique DNIs unique.
   */
  lemma AppendNuevoCliente(cs: seq<Cliente>, data: ClienteForm, id: string, nextCli: int, nextAnt: int)
    requires CodesBelow(cs, nextCli, nextAnt)
    requires Trim(data.dni) == "" || !DniTaken(cs, Trim(data.dni))
    ensures var c := NuevoCliente(data, id, nextCli);
            && CodesBelow(cs + [c], nextCli + 1, nextAnt)
            && (forall i :: 0 <= i < |cs| ==> cs[i].codigo != c.codigo)
            && (DniUnique(cs) ==> DniUnique(cs + [c]))
  {
    var c := NuevoCliente(data, id, nextCli);
    AppendKeepsDniUnique(cs, c);
    AppendKeepsCodes(cs, c, nextCli, nextAnt);
  }

  /**
   * The order `registrarAnteojo` builds from the form. It carries the given
   * id, code and date, starts `en-proceso` (a status the status migration
   * leaves alone), always has a material, and reads each axis from its
   * current name, falling back to the legacy one.
   */
  function NuevoAnteojo(data: AnteojoForm, id: string, codigo: int, fecha: int): (r: Anteojo)
    ensures r.id == id && r.codigo == Some(codigo) && r.fecha == fecha
    ensures r.estado == EnProceso && FixEstado(r.estado) == r.estado
    ensures r.material != "" && (data.material != "" ==> r.material == data.material)
    ensures data.material == "" ==> r.material == DefaultMaterial
    ensures r.od.esf == data.odEsf && r.od.cil == data.odCil
    ensures r.oi.esf == data.oiEsf && r.oi.cil == data.oiCil
    ensures r.marca == data.marca && r.ranurado == data.ranurado && r.filtros == data.filtros
    ensures r.laboratorio == data.laboratorio && r.aclaraciones == data.aclaraciones
    ensures r.precio == data.precio && r.senia == data.senia
    ensures data.odEje != "" ==> r.od.eje == data.odEje
    ensures data.odEje == "" ==> r.od.eje == data.odGrado
    ensures data.oiEje != "" ==> r.oi.eje == data.oiEje
    ensures data.oiEje == "" ==> r.oi.eje == data.oiGrado
  {
    Anteojo(id, Some(codigo), fecha,
            Ojo(data.odEsf, data.odCil, OrElse(data.odEje, data.odGrado)),
            Ojo(data.oiEsf, data.oiCil, OrElse(data.oiEje, data.oiGrado)),
            data.marca, data.ranurado, OrElse(data.material, DefaultMaterial), data.filtros,
            data.laboratorio, data.aclaraciones, data.precio, data.senia, EnProceso)
  }

  /**
   * The order as the edit branch of the form handler writes it back: the
   * form's fields over the original, whose id, code, date and status stay.
   */
  function EditedAnteojo(original: Anteojo, data: AnteojoForm): (r: Anteojo)
    ensures r.id == original.id && r.codigo == original.codigo
    ensures r.fecha == original.fecha && r.estado == original.estado
    ensures r.od == Ojo(data.odEsf, data.odCil, data.odEje) && r.oi == Ojo(data.oiEsf, data.oiCil, data.oiEje)
    ensures data.material != "" ==> r.material == data.material
    ensures data.material == "" ==> r.material == DefaultMaterial
    ensures r.marca == data.marca && r.ranurado == data.ranurado && r.filtros == data.filtros
    ensures r.laboratorio == data.laboratorio && r.aclaraciones == data.aclaraciones
    ensures r.precio == data.precio && r.senia == data.senia
  {
    original.(od := Ojo(data.odEsf, data.odCil, data.odEje),
              oi := Ojo(data.oiEsf, data.oiCil, data.oiEje),
              marca := data.marca, ranurado := data.ranurado,
              material := OrElse(data.material, DefaultMaterial),
              laboratorio := data.laboratorio, filtros := data.filtros,
              aclaraciones := data.aclaraciones, precio := data.precio, senia := data.senia)
  }

  /**
   * An edit stores what registering the same form would, except that the
   * order keeps its identity, date and status, and the axis is read from
   * its current name only.
   */
  lemma EditedLikeNew(original: Anteojo, data: AnteojoForm, codigo: int)
    requires original.codigo == Some(codigo) && data.odGrado == "" && data.oiGrado == ""
    ensures EditedAnteojo(original, data)
            == NuevoAnteojo(data, original.id, codigo, original.fecha).(estado := original.estado)
  {
  }

  /** Saving the same form twice stores the same order. */
  lemma EditedIdempotent(original: Anteojo, data: AnteojoForm)
    ensures EditedAnteojo(EditedAnteojo(original, data), data) == EditedAnteojo(original, data)
  {
  }

  /**
   * `migrateEstados`' inner loop over one client's orders. It returns the
   * orders with their status fixed and whether any had a stale status.
   */
  method FixEstados(os: seq<Anteojo>) returns (fixed: seq<Anteojo>, changed: bool)
    ensures |fixed| == |os|
    ensures forall j :: 0 <= j < |os| ==> fixed[j] == os[j].(estado := FixEstado(os[j].estado))
    ensures changed <==> exists j :: 0 <= j < |os| && EstadoStale(os[j].estado)
  {
    fixed := os;
    changed := false;
    var j := 0;
    while j < |fixed|
      invariant 0 <= j <= |fixed| == |os|
      invariant forall k :: 0 <= k < j ==> fixed[k] == os[k].(estado := FixEstado(os[k].estado))
      invariant forall k :: j <= k < |os| ==> fixed[k] == os[k]
      invariant changed <==> exists k :: 0 <= k < j && EstadoStale(os[k].estado)
    {
      var a := fixed[j];
      if a.estado == "" {
        fixed := fixed[j := a.(estado := EnProceso)];
        changed := true;
      } else if a.estado == Terminados {
        fixed := fixed[j := a.(estado := EsperaCliente)];
        changed := true;
      }
      j := j + 1;
    }
  }

  /**
   * `migrateCodes`' inner loop over one client's orders, from tracker
   * `maxAnt`: it computes what `BackfillAnteojos` specifies.
   */
  method BackfillOrders(os: seq<Anteojo>, maxAnt: int) returns (filled: seq<Anteojo>, newMax: int)
    ensures (filled, newMax) == BackfillAnteojos(os, maxAnt)
  {
    filled := [];
    newMax := maxAnt;
    var j := 0;
    while j < |os|
      invariant 0 <= j <= |os|
      invariant (filled, newMax) == BackfillAnteojos(os[..j], maxAnt)
    {
      assert os[..j + 1][..j] == os[..j];
      var a := os[j];
      if a.codigo.None? {
        newMax := newMax + 1;
        a := a.(codigo := Some(newMax));
      } else if a.codigo.value > newMax {
        newMax := a.codigo.value;
      }
      filled := filled + [a];
      j := j + 1;
    }
    assert os[..j] == os;
  }

  /**
   * One turn of `migrateCodes`' outer loop: the client's code, then, on its
   * order list (an empty one if it had none), the inner loop.
   */
  method BackfillClient(c: Cliente, maxCli: int, maxAnt: int) returns (filled: Cliente, newCli: int, newAnt: int)
    ensures (filled, newCli, newAnt) == BackfillCliente(c, maxCli, maxAnt)
  {
    filled := c;
    newCli := maxCli;
    if c.codigo.None? {
      newCli := newCli + 1;
      filled := filled.(codigo := Some(newCli));
    } else if c.codigo.value > newCli {
      newCli := c.codigo.value;
    }
    var os := if c.anteojos.Some? then c.anteojos.value else [];
    os, newAnt := BackfillOrders(os, maxAnt);
    filled := filled.(anteojos := Some(os));
  }

  /** `migrateCodes`' outer loop over the clients, from trackers `maxCli` and `maxAnt`. */
  method BackfillClients(cs: seq<Cliente>, maxCli: int, maxAnt: int) returns (filled: seq<Cliente>, newCli: int, newAnt: int)
    ensures (filled, newCli, newAnt) == BackfillClientes(cs, maxCli, maxAnt)
  {
    filled := [];
    newCli, newAnt := maxCli, maxAnt;
    var i := 0;
    while i < |cs|
      invariant 0 <= i <= |cs|
      invariant (filled, newCli, newAnt) == BackfillClientes(cs[..i], maxCli, maxAnt)
    {
      assert cs[..i + 1][..i] == cs[..i];
      var c;
      c, newCli, newAnt := BackfillClient(cs[i], newCli, newAnt);
      filled := filled + [c];
      i := i + 1;
    }
    assert cs[..i] == cs;
  }

  /** `migrateEstados`' outer loop: the inner loop on every client that has an order list. */
  method FixAllEstados(cs: seq<Cliente>) returns (fixed: seq<Cliente>, changed: bool)
    ensures |fixed| == |cs|
    ensures forall i :: 0 <= i < |cs| ==> fixed[i] == EstadosFixed(cs[i])
    ensures changed <==> exists i :: 0 <= i < |cs| && ClienteEstadoStale(cs[i])
  {
    fixed := cs;
    changed := false;
    var i := 0;
    while i < |fixed|
      invariant 0 <= i <= |fixed| == |cs|
      invariant forall k :: 0 <= k < i ==> fixed[k] == EstadosFixed(cs[k])
      invariant forall k :: i <= k < |cs| ==> fixed[k] == cs[k]
      invariant changed <==> exists k :: 0 <= k < i && ClienteEstadoStale(cs[k])
    {
      var c := fixed[i];
      if c.anteojos.Some? {
        var os, any := FixEstados(c.anteojos.value);
        assert EstadosFixed(c).anteojos.value == os;
        fixed := fixed[i := c.(anteojos := Some(os))];
        changed := changed || any;
      }
      i := i + 1;
    }
  }

  /** `migratePhones`' loop: each phone that normalises to something else is replaced. */
  method MigrateAllPhones(cs: seq<Cliente>) returns (migrated: seq<Cliente>, changed: bool)
    ensures |migrated| == |cs|
    ensures forall i :: 0 <= i < |cs| ==> migrated[i] == PhoneMigrated(cs[i])
    ensures changed <==> exists i :: 0 <= i < |cs| && PhoneMigrated(cs[i]) != cs[i]
  {
    migrated := cs;
    changed := false;
    var i := 0;
    while i < |migrated|
      invariant 0 <= i <= |migrated| == |cs|
      invariant forall k :: 0 <= k < i ==> migrated[k] == PhoneMigrated(cs[k])
      invariant forall k :: i <= k < |cs| ==> migrated[k] == cs[k]
      invariant changed <==> exists k :: 0 <= k < i && PhoneMigrated(cs[k]) != cs[k]
    {
      var c := migrated[i];
      var prev := c.telefono;
      var norm := NormalizeArPhone(prev);
      if prev != "" && norm != "" && prev != norm {
        migrated := migrated[i := c.(telefono := norm)];
        changed := true;
      }
      i := i + 1;
    }
  }

  class Store {
    var clientes: seq<Cliente>
    var nextClienteCodigo: int
    var nextAnteojoCodigo: int
    /** `selectedClientId`: the client new orders go to; not persisted. */
    var selectedClientId: Option<string>
    /** `editingAnteojoId`: the order the form is editing, if any. */
    var editingAnteojoId: Option<string>

    /** The persisted part of the state. */
    function Snap(): Snapshot
      reads this
    {
      Snapshot(clientes, nextClienteCodigo, nextAnteojoCodigo)
    }

    /** What `migrateCodes` establishes on load and every operation keeps. */
    ghost predicate Valid()
      reads this
    {
      CodesValid(Snap())
    }

    /**
     * `getClienteById(selectedClientId)`, as an index into `clientes`: the
     * first client whose id is the selected one, or `None` when nothing is
     * selected or no client has that id.
     */
    function Selected(): (r: Option<nat>)
      reads this
      ensures r.Some? ==> && r.value < |clientes| && selectedClientId == Some(clientes[r.value].id)
                          && forall i :: 0 <= i < r.value ==> clientes[i].id != selectedClientId.value
      ensures r.None? <==> selectedClientId.None? || forall i :: 0 <= i < |clientes| ==> clientes[i].id != selectedClientId.value
    {
      if selectedClientId.None? then None else ClienteIndex(clientes, selectedClientId.value)
    }

    /** The store before anything is loaded: no clients, both counters at 10000, nothing selected. */
    constructor ()
      ensures clientes == [] && nextClienteCodigo == FirstCode && nextAnteojoCodigo == FirstCode
      ensures selectedClientId.None? && editingAnteojoId.None?
      ensures Valid()
    {
      clientes := [];
      nextClienteCodigo := FirstCode;
      nextAnteojoCodigo := FirstCode;
      selectedClientId := None;
      editingAnteojoId := None;
    }

    /**
     * `loadStore`: the stored client array, when it is one, and each stored
     * counter, when it is a number, replace what is in memory; the selection
     * is always cleared.
     */
    method Load(savedClientes: Option<seq<Cliente>>, savedNextCliente: Option<int>, savedNextAnteojo: Option<int>)
      modifies this
      ensures clientes == (if savedClientes.Some? then savedClientes.value else old(clientes))
      ensures nextClienteCodigo == (if savedNextCliente.Some? then savedNextCliente.value else old(nextClienteCodigo))
      ensures nextAnteojoCodigo == (if savedNextAnteojo.Some? then savedNextAnteojo.value else old(nextAnteojoCodigo))
      ensures selectedClientId.None? && editingAnteojoId == old(editingAnteojoId)
    {
      if savedClientes.Some? {
        clientes := savedClientes.value;
      }
      if savedNextCliente.Some? {
        nextClienteCodigo := savedNextCliente.value;
      }
      if savedNextAnteojo.Some? {
        nextAnteojoCodigo := savedNextAnteojo.value;
      }
      selectedClientId := None;
    }

    /**
     * `migrateCodes`: gives every client and order a code, and moves both
     * counters past every code in use. Whatever was loaded, the store is
     * valid afterwards.
     */
    method MigrateCodes()
      modifies this
      ensures Snap() == CodesMigrated(old(Snap()))
      ensures Valid()
      ensures selectedClientId == old(selectedClientId) && editingAnteojoId == old(editingAnteojoId)
    {
      var filled, maxCli, maxAnt := BackfillClients(clientes, FirstCode - 1, FirstCode - 1);
      clientes := filled;
      nextClienteCodigo := NextCode(nextClienteCodigo, maxCli);
      nextAnteojoCodigo := NextCode(nextAnteojoCodigo, maxAnt);
    }

    /**
     * `migrateEstados`: fixes the status of every order of every client that
     * has an order list. It reports a change exactly when some order had a
     * stale status, and keeps the store valid.
     */
    method MigrateEstados() returns (changed: bool)
      modifies this
      ensures |clientes| == |old(clientes)|
      ensures forall i :: 0 <= i < |clientes| ==> clientes[i] == EstadosFixed(old(clientes)[i])
      ensures changed <==> exists i :: 0 <= i < |old(clientes)| && ClienteEstadoStale(old(clientes)[i])
      ensures nextClienteCodigo == old(nextClienteCodigo) && nextAnteojoCodigo == old(nextAnteojoCodigo)
      ensures selectedClientId == old(selectedClientId) && editingAnteojoId == old(editingAnteojoId)
      ensures old(Valid()) ==> Valid()
    {
      var cs;
      cs, changed := FixAllEstados(clientes);
      if Valid() {
        forall k | 0 <= k < |cs|
          ensures ClienteBelow(cs[k], nextClienteCodigo, nextAnteojoCodigo)
        {
          EstadosFixedKeepsCodes(clientes[k], nextClienteCodigo, nextAnteojoCodigo);
        }
      }
      clientes := cs;
    }

    /**
     * `migratePhones`: replaces each client's phone by `PhoneMigrated`.
     * It reports a change exactly when some phone changed, and keeps the
     * store valid.
     */
    method MigratePhones() returns (changed: bool)
      modifies this
      ensures |clientes| == |old(clientes)|
      ensures forall i :: 0 <= i < |clientes| ==> clientes[i] == PhoneMigrated(old(clientes)[i])
      ensures changed <==> exists i :: 0 <= i < |old(clientes)| && PhoneMigrated(old(clientes)[i]) != old(clientes)[i]
      ensures nextClienteCodigo == old(nextClienteCodigo) && nextAnteojoCodigo == old(nextAnteojoCodigo)
      ensures selectedClientId == old(selectedClientId) && editingAnteojoId == old(editingAnteojoId)
      ensures old(Valid()) ==> Valid()
    {
      var cs;
      cs, changed := MigrateAllPhones(clientes);
      if Valid() {
        forall k | 0 <= k < |cs|
          ensures ClienteBelow(cs[k], nextClienteCodigo, nextAnteojoCodigo)
        {
          assert cs[k] == clientes[k].(telefono := cs[k].telefono);
        }
      }
      clientes := cs;
    }

    /**
     * `clearAllData`: unless the user declines the confirmation, empties the
     * store, resets both counters to 10000 and clears the selection.
     */
    method ClearAllData(confirmFirst: bool, confirmed: bool) returns (cleared: bool)
      modifies this
      ensures cleared <==> !confirmFirst || confirmed
      ensures !cleared ==> Snap() == old(Snap()) && selectedClientId == old(selectedClientId)
      ensures cleared ==> clientes == [] && nextClienteCodigo == FirstCode && nextAnteojoCodigo == FirstCode
      ensures cleared ==> selectedClientId.None?
      ensures editingAnteojoId == old(editingAnteojoId)
      ensures old(Valid()) ==> Valid()
    {
      if confirmFirst && !confirmed {
        return false;
      }
      clientes := [];
      nextClienteCodigo := FirstCode;
      nextAnteojoCodigo := FirstCode;
      selectedClientId := None;
      return true;
    }

    /**
     * `registrarCliente`. Fails, changing nothing, when the trimmed name or
     * surname is empty, or when the trimmed DNI is non-empty and already
     * used. Otherwise appends the new client with the next client code and
     * selects it. The new code differs from every code in use, and DNIs
     * that were unique stay unique.
     */
    method RegistrarCliente(data: ClienteForm, freshId: string) returns (r: Result<Cliente, Error>)
      requires Valid()
      modifies this
      ensures Valid()
      ensures Trim(data.nombre) == "" || Trim(data.apellido) == "" ==> r == Failure(MissingName)
      ensures (Trim(data.nombre) != "" && Trim(data.apellido) != "" && Trim(data.dni) != ""
               && DniTaken(old(clientes), Trim(data.dni))) ==> r == Failure(DuplicateDni)
      ensures r.Success? <==> Trim(data.nombre) != "" && Trim(data.apellido) != ""
                              && (Trim(data.dni) == "" || !DniTaken(old(clientes), Trim(data.dni)))
      ensures r.Failure? ==> Snap() == old(Snap()) && selectedClientId == old(selectedClientId)
      ensures r.Success? ==> && r.value == NuevoCliente(data, freshId, old(nextClienteCodigo))
                             && clientes == old(clientes) + [r.value]
                             && nextClienteCodigo == old(nextClienteCodigo) + 1
                             && nextAnteojoCodigo == old(nextAnteojoCodigo)
                             && selectedClientId == Some(freshId)
      ensures r.Success? ==> forall i :: 0 <= i < |old(clientes)| ==> old(clientes)[i].codigo != r.value.codigo
      ensures old(DniUnique(clientes)) ==> DniUnique(clientes)
      ensures editingAnteojoId == old(editingAnteojoId)
    {
      if Trim(data.nombre) == "" || Trim(data.apellido) == "" {
        return Failure(MissingName);
      }
      var dni := Trim(data.dni);
      if dni != "" && DniTaken(clientes, dni) {
        return Failure(DuplicateDni);
      }
      AppendNuevoCliente(clientes, data, freshId, nextClienteCodigo, nextAnteojoCodigo);
      var cliente := NuevoCliente(data, freshId, nextClienteCodigo);
      nextClienteCodigo := nextClienteCodigo + 1;
      clientes := clientes + [cliente];
      selectedClientId := Some(freshId);
      r := Success(cliente);
    }

    /** Selecting a search result: its id becomes the selection. */
    method Seleccionar(id: string)
      modifies this
      ensures selectedClientId == Some(id)
      ensures Snap() == old(Snap()) && editingAnteojoId == old(editingAnteojoId)
    {
      selectedClientId := Some(id);
    }

    /**
     * `registrarAnteojo`. Fails, changing nothing, when no client is
     * selected (or the selection is not in the store). Otherwise the new
     * order, with the next order code and status `en-proceso`, goes first in
     * the selected client's list. Its code differs from every order code in
     * use.
     */
    method RegistrarAnteojo(data: AnteojoForm, freshId: string, fecha: int) returns (r: Result<Anteojo, Error>)
      requires Valid()
      modifies this
      ensures Valid()
      ensures old(Selected()).None? <==> r == Failure(NoClientSelected)
      ensures r.Success? <==> old(Selected()).Some?
      ensures r.Failure? ==> Snap() == old(Snap())
      ensures r.Success? ==>
                var k := old(Selected()).value;
                var c := old(clientes)[k];
                && r.value == NuevoAnteojo(data, freshId, old(nextAnteojoCodigo), fecha)
                && clientes == old(clientes)[k := c.(anteojos := Some([r.value] + c.anteojos.value))]
                && nextAnteojoCodigo == old(nextAnteojoCodigo) + 1
                && nextClienteCodigo == old(nextClienteCodigo)
      ensures r.Success? ==> forall i, j :: 0 <= i < |old(clientes)| && 0 <= j < |old(clientes)[i].anteojos.value|
                               ==> old(clientes)[i].anteojos.value[j].codigo != r.value.codigo
      ensures selectedClientId == old(selectedClientId) && editingAnteojoId == old(editingAnteojoId)
    {
      var k := Selected();
      if k.None? {
        return Failure(NoClientSelected);
      }
      var c := clientes[k.value];
      var anteojo := NuevoAnteojo(data, freshId, nextAnteojoCodigo, fecha);
      nextAnteojoCodigo := nextAnteojoCodigo + 1;
      clientes := clientes[k.value := c.(anteojos := Some([anteojo] + c.anteojos.value))];
      r := Success(anteojo);
    }

    /**
     * `eliminarAnteojo`. When a client is selected, the order is in its list
     * and the user confirms, the first order with that id is removed and the
     * rest keep their order; otherwise nothing changes.
     */
    method EliminarAnteojo(anteojoId: string, confirmed: bool) returns (removed: bool)
      requires Valid()
      modifies this
      ensures Valid()
      ensures removed <==> && old(Selected()).Some?
                           && AnteojoIndex(old(clientes)[old(Selected()).value].anteojos.value, anteojoId).Some?
                           && confirmed
      ensures !removed ==> Snap() == old(Snap())
      ensures removed ==>
                var k := old(Selected()).value;
                var c := old(clientes)[k];
                var j := AnteojoIndex(c.anteojos.value, anteojoId).value;
                clientes == old(clientes)[k := c.(anteojos := Some(c.anteojos.value[..j] + c.anteojos.value[j + 1..]))]
      ensures nextClienteCodigo == old(nextClienteCodigo) && nextAnteojoCodigo == old(nextAnteojoCodigo)
      ensures selectedClientId == old(selectedClientId) && editingAnteojoId == old(editingAnteojoId)
    {
      var k := Selected();
      if k.None? {
        return false;
      }
      var c := clientes[k.value];
      var os := c.anteojos.value;
      var j := AnteojoIndex(os, anteojoId);
      if j.None? || !confirmed {
        return false;
      }
      RemoveKeepsBelow(os, j.value, nextAnteojoCodigo);
      ReplaceKeepsCodes(clientes, k.value, c.(anteojos := Some(os[..j.value] + os[j.value + 1..])),
                        nextClienteCodigo, nextAnteojoCodigo);
      clientes := clientes[k.value := c.(anteojos := Some(os[..j.value] + os[j.value + 1..]))];
      return true;
    }

    /**
     * `iniciarEdicionAnteojo`: the form starts editing the order when a
     * client is selected and the order is in its list; otherwise nothing
     * changes.
     */
    method IniciarEdicionAnteojo(anteojoId: string)
      requires Valid()
      modifies this
      ensures Valid()
      ensures editingAnteojoId == (if Selected().Some? && AnteojoIndex(clientes[Selected().value].anteojos.value, anteojoId).Some?
                                   then Some(anteojoId) else old(editingAnteojoId))
      ensures Snap() == old(Snap()) && selectedClientId == old(selectedClientId)
    {
      var k := Selected();
      if k.None? {
        return;
      }
      var j := AnteojoIndex(clientes[k.value].anteojos.value, anteojoId);
      if j.None? {
        return;
      }
      editingAnteojoId := Some(anteojoId);
    }

    /**
     * The edit branch of the order form's submit handler. When the selected
     * client still has the order being edited, it is replaced in place by
     * `EditedAnteojo`; either way editing ends.
     */
    method GuardarEdicionAnteojo(data: AnteojoForm) returns (saved: bool)
      requires Valid() && editingAnteojoId.Some?
      modifies this
      ensures Valid()
      ensures saved <==> && old(Selected()).Some?
                         && AnteojoIndex(old(clientes)[old(Selected()).value].anteojos.value, old(editingAnteojoId).value).Some?
      ensures !saved ==> Snap() == old(Snap())
      ensures saved ==>
                var k := old(Selected()).value;
                var c := old(clientes)[k];
                var j := AnteojoIndex(c.anteojos.value, old(editingAnteojoId).value).value;
                clientes == old(clientes)[k := c.(anteojos := Some(c.anteojos.value[j := EditedAnteojo(c.anteojos.value[j], data)]))]
      ensures nextClienteCodigo == old(nextClienteCodigo) && nextAnteojoCodigo == old(nextAnteojoCodigo)
      ensures selectedClientId == old(selectedClientId) && editingAnteojoId.None?
    {
      var k := Selected();
      saved := false;
      if k.Some? {
        var c := clientes[k.value];
        var os := c.anteojos.value;
        var j := AnteojoIndex(os, editingAnteojoId.value);
        if j.Some? {
          clientes := clientes[k.value := c.(anteojos := Some(os[j.value := EditedAnteojo(os[j.value], data)]))];
          saved := true;
        }
      }
      editingAnteojoId := None;
    }
  }
}
