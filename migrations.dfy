/**
 * What the three load-time migrations compute, as functions of the data
 * read back from storage. The `Store` class runs them as loops that update
 * the client list in place and is proved to agree with these functions.
 */
module Migrations {
  import opened Wrappers
  import opened Text
  import opened Phone
  import opened Records

  // ---------------------------------------------------------------------
  // migrateCodes

  /** `b` is `a` with, at most, a code filled in; a numeric code is kept. */
  predicate AnteojoBackfilled(a: Anteojo, b: Anteojo) {
    b == a.(codigo := b.codigo) && (a.codigo.Some? ==> b.codigo == a.codigo)
  }

  predicate AnteojosBackfilled(os: seq<Anteojo>, bs: seq<Anteojo>) {
    |bs| == |os| && forall j :: 0 <= j < |os| ==> AnteojoBackfilled(os[j], bs[j])
  }

  /**
   * `d` is `c` with, at most, a code filled in and its orders backfilled; a
   * missing order list has become the empty list.
   */
  predicate ClienteBackfilled(c: Cliente, d: Cliente) {
    && d == c.(codigo := d.codigo, anteojos := d.anteojos)
    && (c.codigo.Some? ==> d.codigo == c.codigo)
    && d.anteojos.Some?
    && AnteojosBackfilled(if c.anteojos.Some? then c.anteojos.value else [], d.anteojos.value)
  }

  /** One turn of the inner loop: `a.codigo = ++maxAnt`, or raise `maxAnt` to `a.codigo`. */
  function BackfillAnteojo(a: Anteojo, maxAnt: int): (Anteojo, int) {
    if a.codigo.None? then (a.(codigo := Some(maxAnt + 1)), maxAnt + 1)
    else (a, if a.codigo.value > maxAnt then a.codigo.value else maxAnt)
  }

  /**
   * The inner loop over a client's orders, starting from tracker `maxAnt`:
   * it fills in missing codes, changes nothing else, and never lowers the
   * tracker.
   */
  function BackfillAnteojos(os: seq<Anteojo>, maxAnt: int): (r: (seq<Anteojo>, int))
    ensures AnteojosBackfilled(os, r.0) && r.1 >= maxAnt
    decreases |os|
  {
    if os == [] then ([], maxAnt)
    else
      var init := os[..|os| - 1];
      var p := BackfillAnteojos(init, maxAnt);
      var q := BackfillAnteojo(os[|os| - 1], p.1);
      var r := (p.0 + [q.0], q.1);
      assert forall j :: 0 <= j < |os| - 1 ==> os[j] == init[j] && r.0[j] == p.0[j];
      r
  }

  /**
   * Every order ends up with a code no larger than the final tracker; the
   * codes the inner loop fills in are above the starting tracker; the final
   * tracker is the starting one or one of the codes.
   */
  lemma {:induction false} BackfillAnteojosSpec(os: seq<Anteojo>, maxAnt: int)
    ensures var r := BackfillAnteojos(os, maxAnt);
            && AnteojosBelow(r.0, r.1 + 1)
            && (forall j :: 0 <= j < |os| && os[j].codigo.None? ==> r.0[j].codigo.value > maxAnt)
            && (r.1 == maxAnt || exists j :: 0 <= j < |r.0| && r.0[j].codigo == Some(r.1))
    decreases |os|
  {
    if os != [] {
      var init := os[..|os| - 1];
      BackfillAnteojosSpec(init, maxAnt);
      var p := BackfillAnteojos(init, maxAnt);
      var q := BackfillAnteojo(os[|os| - 1], p.1);
      var r := BackfillAnteojos(os, maxAnt);
      assert r == (p.0 + [q.0], q.1);
      forall j | 0 <= j < |os|
        ensures AnteojoBackfilled(os[j], r.0[j])
        ensures r.0[j].codigo.Some? && r.0[j].codigo.value < r.1 + 1
        ensures os[j].codigo.None? ==> r.0[j].codigo.value > maxAnt
      {
        if j < |os| - 1 {
          assert os[j] == init[j] && r.0[j] == p.0[j];
        } else {
          assert r.0[j] == q.0;
        }
      }
      if q.1 != p.1 {
        assert r.0[|os| - 1].codigo == Some(r.1);
      } else if p.1 != maxAnt {
        var j :| 0 <= j < |p.0| && p.0[j].codigo == Some(p.1);
        assert r.0[j].codigo == Some(r.1);
      }
    }
  }

  /** One turn of the outer loop, before its inner loop: the client's own code. */
  function BackfillCodigo(c: Cliente, maxCli: int): (Option<int>, int) {
    if c.codigo.None? then (Some(maxCli + 1), maxCli + 1)
    else (c.codigo, if c.codigo.value > maxCli then c.codigo.value else maxCli)
  }

  /** One turn of the outer loop: the client's code, `anteojos = []` if need be, then its orders. */
  function BackfillCliente(c: Cliente, maxCli: int, maxAnt: int): (Cliente, int, int) {
    var k := BackfillCodigo(c, maxCli);
    var p := BackfillAnteojos(if c.anteojos.Some? then c.anteojos.value else [], maxAnt);
    (c.(codigo := k.0, anteojos := Some(p.0)), k.1, p.1)
  }

  /** One turn of the outer loop fills in codes, and its trackers bound the client's codes. */
  lemma BackfillClienteSpec(c: Cliente, maxCli: int, maxAnt: int)
    ensures var r := BackfillCliente(c, maxCli, maxAnt);
            && ClienteBackfilled(c, r.0)
            && r.1 >= maxCli && r.2 >= maxAnt && ClienteBelow(r.0, r.1 + 1, r.2 + 1)
  {
    BackfillAnteojosSpec(if c.anteojos.Some? then c.anteojos.value else [], maxAnt);
  }

  lemma ClienteBelowMonotonic(c: Cliente, nextCli: int, nextAnt: int, nextCli': int, nextAnt': int)
    requires ClienteBelow(c, nextCli, nextAnt) && nextCli <= nextCli' && nextAnt <= nextAnt'
    ensures ClienteBelow(c, nextCli', nextAnt')
  {
  }

  /**
   * The outer loop over the clients, from trackers `maxCli` and `maxAnt`:
   * each client changes only by having codes and a missing order list filled
   * in, and neither tracker falls.
   */
  function BackfillClientes(cs: seq<Cliente>, maxCli: int, maxAnt: int): (r: (seq<Cliente>, int, int))
    ensures |r.0| == |cs|
    ensures forall i :: 0 <= i < |cs| ==> ClienteBackfilled(cs[i], r.0[i])
    ensures r.1 >= maxCli && r.2 >= maxAnt
    decreases |cs|
  {
    if cs == [] then ([], maxCli, maxAnt)
    else
      var init, last := cs[..|cs| - 1], cs[|cs| - 1];
      var p := BackfillClientes(init, maxCli, maxAnt);
      BackfillClienteSpec(last, p.1, p.2);
      var q := BackfillCliente(last, p.1, p.2);
      var r := (p.0 + [q.0], q.1, q.2);
      assert forall i :: 0 <= i < |cs| - 1 ==> cs[i] == init[i] && r.0[i] == p.0[i];
      r
  }

  /** The final trackers of the outer loop bound every code of every client. */
  lemma {:induction false} BackfillClientesBounds(cs: seq<Cliente>, maxCli: int, maxAnt: int)
    ensures var r := BackfillClientes(cs, maxCli, maxAnt);
            r.1 >= maxCli && r.2 >= maxAnt && CodesBelow(r.0, r.1 + 1, r.2 + 1)
    decreases |cs|
  {
    if cs != [] {
      var init, last := cs[..|cs| - 1], cs[|cs| - 1];
      BackfillClientesBounds(init, maxCli, maxAnt);
      var p := BackfillClientes(init, maxCli, maxAnt);
      BackfillClienteSpec(last, p.1, p.2);
      var q := BackfillCliente(last, p.1, p.2);
      var r := BackfillClientes(cs, maxCli, maxAnt);
      assert r == (p.0 + [q.0], q.1, q.2);
      forall i | 0 <= i < |cs| - 1
        ensures ClienteBelow(r.0[i], r.1 + 1, r.2 + 1)
      {
        assert r.0[i] == p.0[i];
        ClienteBelowMonotonic(p.0[i], p.1 + 1, p.2 + 1, r.1 + 1, r.2 + 1);
      }
      assert r.0[|cs| - 1] == q.0;
    }
  }

  /**
   * `Math.max(counter || 10000, maxSeen + 1, 10000)`: the next code to hand
   * out is at least 10000, above every code seen, and never below the stored
   * counter (a counter of 0 reads as 10000).
   */
  function NextCode(counter: int, maxSeen: int): (r: int)
    ensures r >= FirstCode && r > maxSeen && r >= counter
    ensures r == FirstCode || r == counter || r == maxSeen + 1
  {
    var c := if counter == 0 then FirstCode else counter;
    if c >= maxSeen + 1 && c >= FirstCode then c
    else if maxSeen + 1 >= FirstCode then maxSeen + 1
    else FirstCode
  }

  /** The persisted part of the store. */
  datatype Snapshot = Snapshot(clientes: seq<Cliente>, nextClienteCodigo: int, nextAnteojoCodigo: int)

  /** The counters are at least 10000 and above every code in use. */
  predicate CodesValid(s: Snapshot) {
    && s.nextClienteCodigo >= FirstCode && s.nextAnteojoCodigo >= FirstCode
    && CodesBelow(s.clientes, s.nextClienteCodigo, s.nextAnteojoCodigo)
  }

  /**
   * `migrateCodes`: both trackers start at 9999, the clients are backfilled
   * in order, then each counter is moved past its tracker. Afterwards every
   * client and order has a code, the counters are above all of them, and
   * nothing but codes (and a missing order list) has changed.
   */
  function CodesMigrated(s: Snapshot): (r: Snapshot)
    ensures CodesValid(r)
    ensures |r.clientes| == |s.clientes|
    ensures forall i :: 0 <= i < |s.clientes| ==> ClienteBackfilled(s.clientes[i], r.clientes[i])
    ensures r.nextClienteCodigo >= s.nextClienteCodigo && r.nextAnteojoCodigo >= s.nextAnteojoCodigo
  {
    BackfillClientesBounds(s.clientes, FirstCode - 1, FirstCode - 1);
    var b := BackfillClientes(s.clientes, FirstCode - 1, FirstCode - 1);
    Snapshot(b.0, NextCode(s.nextClienteCodigo, b.1), NextCode(s.nextAnteojoCodigo, b.2))
  }

  /** Orders that all have codes below `bound` are left alone, and the tracker stays below `bound`. */
  lemma {:induction false} BackfillAnteojosCoded(os: seq<Anteojo>, maxAnt: int, bound: int)
    requires AnteojosBelow(os, bound) && maxAnt < bound
    ensures BackfillAnteojos(os, maxAnt).0 == os && BackfillAnteojos(os, maxAnt).1 < bound
    decreases |os|
  {
    if os != [] {
      var init := os[..|os| - 1];
      assert forall j :: 0 <= j < |init| ==> init[j] == os[j];
      BackfillAnteojosCoded(init, maxAnt, bound);
      assert init + [os[|os| - 1]] == os;
    }
  }

  lemma BackfillClienteCoded(c: Cliente, maxCli: int, maxAnt: int, nextCli: int, nextAnt: int)
    requires ClienteBelow(c, nextCli, nextAnt) && maxCli < nextCli && maxAnt < nextAnt
    ensures var r := BackfillCliente(c, maxCli, maxAnt);
            r.0 == c && r.1 < nextCli && r.2 < nextAnt
  {
    BackfillAnteojosCoded(c.anteojos.value, maxAnt, nextAnt);
  }

  /** Clients whose codes are all below the bounds are left alone, and the trackers stay below them. */
  lemma {:induction false} BackfillClientesCoded(cs: seq<Cliente>, maxCli: int, maxAnt: int, nextCli: int, nextAnt: int)
    requires CodesBelow(cs, nextCli, nextAnt) && maxCli < nextCli && maxAnt < nextAnt
    ensures var r := BackfillClientes(cs, maxCli, maxAnt);
            r.0 == cs && r.1 < nextCli && r.2 < nextAnt
    decreases |cs|
  {
    if cs != [] {
      var init, last := cs[..|cs| - 1], cs[|cs| - 1];
      forall i | 0 <= i < |init|
        ensures ClienteBelow(init[i], nextCli, nextAnt)
      {
        assert init[i] == cs[i];
      }
      BackfillClientesCoded(init, maxCli, maxAnt, nextCli, nextAnt);
      var p := BackfillClientes(init, maxCli, maxAnt);
      BackfillClienteCoded(last, p.1, p.2, nextCli, nextAnt);
      var q := BackfillCliente(last, p.1, p.2);
      assert BackfillClientes(cs, maxCli, maxAnt) == (init + [last], q.1, q.2);
      assert init + [last] == cs;
    }
  }

  /** A store whose codes are already in order is left exactly as it is. */
  lemma CodesMigratedValid(s: Snapshot)
    requires CodesValid(s)
    ensures CodesMigrated(s) == s
  {
    BackfillClientesCoded(s.clientes, FirstCode - 1, FirstCode - 1, s.nextClienteCodigo, s.nextAnteojoCodigo);
  }

  /** Running `migrateCodes` on every load changes nothing after the first time. */
  lemma CodesMigratedIdempotent(s: Snapshot)
    ensures CodesMigrated(CodesMigrated(s)) == CodesMigrated(s)
  {
    CodesMigratedValid(CodesMigrated(s));
  }

  /**
   * The codes handed out are not unique: a client without a code that comes
   * before a client already coded 10000 is given 10000 as well.
   */
  lemma CodesMigratedMayRepeat(a: Cliente, b: Cliente)
    requires a.codigo.None? && b.codigo == Some(FirstCode)
    ensures var r := CodesMigrated(Snapshot([a, b], FirstCode, FirstCode));
            r.clientes[0].codigo == Some(FirstCode) && r.clientes[1].codigo == Some(FirstCode)
  {
    assert [a, b][..1] == [a];
    assert [a][..0] == [];
    var p0 := BackfillClientes([], FirstCode - 1, FirstCode - 1);
    assert p0.0 == [] && p0.1 == FirstCode - 1;
    var qa := BackfillCliente(a, p0.1, p0.2);
    assert qa.0.codigo == Some(FirstCode) && qa.1 == FirstCode;
    var p1 := BackfillClientes([a], FirstCode - 1, FirstCode - 1);
    assert p1.0 == [qa.0] && p1.1 == FirstCode;
    var qb := BackfillCliente(b, p1.1, p1.2);
    assert qb.0.codigo == Some(FirstCode);
    assert BackfillClientes([a, b], FirstCode - 1, FirstCode - 1).0 == [qa.0, qb.0];
  }

  // ---------------------------------------------------------------------
  // migrateEstados

  /** An order status that `migrateEstados` rewrites: missing, or the legacy `terminados`. */
  predicate EstadoStale(e: string) {
    e == "" || e == Terminados
  }

  /**
   * A missing status becomes `en-proceso` and `terminados` becomes
   * `espera-cliente`; any other status is kept.
   */
  function FixEstado(e: string): (r: string)
    ensures e == "" ==> r == EnProceso
    ensures !EstadoStale(r)
    ensures !EstadoStale(e) ==> r == e
    ensures e == Terminados ==> r == EsperaCliente
  {
    if e == "" then EnProceso else if e == Terminados then EsperaCliente else e
  }

  /** Some order of the client has a stale status (a client without an order list has none). */
  predicate ClienteEstadoStale(c: Cliente) {
    c.anteojos.Some? && exists j :: 0 <= j < |c.anteojos.value| && EstadoStale(c.anteojos.value[j].estado)
  }

  /**
   * One turn of the outer loop of `migrateEstados`: every order of the client
   * gets `FixEstado` of its status; a client whose `anteojos` is not a list is
   * skipped.
   */
  function EstadosFixed(c: Cliente): (r: Cliente)
    ensures r == c.(anteojos := r.anteojos)
    ensures c.anteojos.None? ==> r == c
    ensures c.anteojos.Some? ==> r.anteojos.Some? && |r.anteojos.value| == |c.anteojos.value|
    ensures c.anteojos.Some? ==> forall j :: 0 <= j < |c.anteojos.value| ==>
              r.anteojos.value[j] == c.anteojos.value[j].(estado := FixEstado(c.anteojos.value[j].estado))
  {
    match c.anteojos
    case None => c
    case Some(os) =>
      c.(anteojos := Some(seq(|os|, j requires 0 <= j < |os| => os[j].(estado := FixEstado(os[j].estado)))))
  }

  /** After the migration no order of the client has a stale status. */
  lemma EstadosFixedSettled(c: Cliente)
    ensures !ClienteEstadoStale(EstadosFixed(c))
  {
  }

  /** The migration changes a client exactly when one of its orders had a stale status. */
  lemma EstadosFixedChanges(c: Cliente)
    ensures EstadosFixed(c) != c <==> ClienteEstadoStale(c)
  {
    if c.anteojos.Some? {
      var os := c.anteojos.value;
      if ClienteEstadoStale(c) {
        var j :| 0 <= j < |os| && EstadoStale(os[j].estado);
        assert EstadosFixed(c).anteojos.value[j].estado != os[j].estado;
      } else {
        assert EstadosFixed(c).anteojos.value == os;
      }
    }
  }

  /** The status migration leaves codes and order lists where they were. */
  lemma EstadosFixedKeepsCodes(c: Cliente, nextCli: int, nextAnt: int)
    requires ClienteBelow(c, nextCli, nextAnt)
    ensures ClienteBelow(EstadosFixed(c), nextCli, nextAnt)
  {
  }

  /** Running `migrateEstados` a second time changes nothing. */
  lemma EstadosFixedIdempotent(c: Cliente)
    ensures EstadosFixed(EstadosFixed(c)) == EstadosFixed(c)
  {
    EstadosFixedSettled(c);
    EstadosFixedChanges(EstadosFixed(c));
  }

  // ---------------------------------------------------------------------
  // migratePhones

  /**
   * One turn of the loop of `migratePhones`: the phone is replaced by its
   * normalised form when both are non-empty and they differ. Only the phone
   * changes; a phone with a digit ends up normalised, one without is kept.
   */
  function PhoneMigrated(c: Cliente): (r: Cliente)
    ensures r == c.(telefono := r.telefono)
    ensures HasDigit(c.telefono) ==> r.telefono == NormalizeArPhone(c.telefono)
    ensures !HasDigit(c.telefono) ==> r == c
  {
    var norm := NormalizeArPhone(c.telefono);
    if c.telefono != "" && norm != "" && c.telefono != norm then c.(telefono := norm) else c
  }

  /**
   * `migratePhones`, which runs on every load, is not idempotent: a phone
   * written with the mobile marker twice loses one `15` per load.
   */
  lemma PhoneMigratedNotIdempotent(c: Cliente, local: string)
    requires |local| == 8 && AllDigits(local) && c.telefono == "111515" + local
    ensures PhoneMigrated(c).telefono == "+5491115" + local
    ensures PhoneMigrated(PhoneMigrated(c)).telefono == "+54911" + local
  {
    DoubleMarkerNormalized(local);
    DoubleMarkerRenormalized(local);
    assert "+5491115" + local != c.telefono by {
      assert ("+5491115" + local)[0] != c.telefono[0];
    }
    var once := PhoneMigrated(c);
    assert once.telefono != "+54911" + local by {
      assert |once.telefono| != |"+54911" + local|;
    }
  }
}
