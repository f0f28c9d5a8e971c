/**
 * Read-only lookups on the client list: `getClienteById`, the order lookup
 * by id that deleting and editing share, and `buscarClientes`.
 */
module Queries {
  import opened Wrappers
  import opened Text
  import opened Records

  /** `store.clientes.find(c => c.id === id)`, as the index of the first client with that id. */
  function ClienteIndex(cs: seq<Cliente>, id: string): (r: Option<nat>)
    ensures r.Some? ==> r.value < |cs| && cs[r.value].id == id
    ensures r.Some? ==> forall i :: 0 <= i < r.value ==> cs[i].id != id
    ensures r.None? <==> forall i :: 0 <= i < |cs| ==> cs[i].id != id
    decreases |cs|
  {
    if cs == [] then None
    else if cs[0].id == id then Some(0)
    else
      match ClienteIndex(cs[1..], id)
      case None => None
      case Some(k) => Some(k + 1)
  }

  /** `anteojos.findIndex(x => x.id === id)`, with `None` for -1. */
  function AnteojoIndex(os: seq<Anteojo>, id: string): (r: Option<nat>)
    ensures r.Some? ==> r.value < |os| && os[r.value].id == id
    ensures r.Some? ==> forall j :: 0 <= j < r.value ==> os[j].id != id
    ensures r.None? <==> forall j :: 0 <= j < |os| ==> os[j].id != id
    decreases |os|
  {
    if os == [] then None
    else if os[0].id == id then Some(0)
    else
      match AnteojoIndex(os[1..], id)
      case None => None
      case Some(k) => Some(k + 1)
  }

  /**
   * The search test of `buscarClientes` for a lower-case, trimmed, non-empty
   * term: the DNI equals it, or the name or surname contains it, ignoring
   * the case of ASCII letters.
   */
  predicate Matches(c: Cliente, term: string) {
    ToLower(c.dni) == term || Contains(ToLower(c.nombre), term) || Contains(ToLower(c.apellido), term)
  }

  /** `r` is what is left of `s` after dropping some of its elements. */
  predicate SubsequenceOf(r: seq<Cliente>, s: seq<Cliente>)
    decreases |s|
  {
    r == [] || (s != [] && ((r[0] == s[0] && SubsequenceOf(r[1..], s[1..])) || SubsequenceOf(r, s[1..])))
  }

  /**
   * `cs.filter(c => Matches(c, term))`: the matching clients, each as many
   * times as it occurs in `cs`, in the order of `cs`; all of `cs` when every
   * client matches.
   */
  function Filter(cs: seq<Cliente>, term: string): (r: seq<Cliente>)
    ensures forall c :: multiset(r)[c] == if Matches(c, term) then multiset(cs)[c] else 0
    ensures forall c :: c in r <==> c in cs && Matches(c, term)
    ensures SubsequenceOf(r, cs)
    ensures (forall i :: 0 <= i < |cs| ==> Matches(cs[i], term)) ==> r == cs
    decreases |cs|
  {
    if cs == [] then []
    else
      assert cs == [cs[0]] + cs[1..];
      var rest := Filter(cs[1..], term);
      if Matches(cs[0], term) then
        var r := [cs[0]] + rest;
        assert r[1..] == rest;
        r
      else
        assert rest == [] || SubsequenceOf(rest, cs[1..]);
        rest
  }

  /**
   * `buscarClientes(q)`: a blank query finds nothing. Any other query finds
   * exactly the clients that match its trimmed, lower-cased text, each as
   * many times as it is stored, in the order of the store.
   */
  function Buscar(cs: seq<Cliente>, q: string): (r: seq<Cliente>)
    ensures AllSpace(q) ==> r == []
    ensures !AllSpace(q) ==> forall c :: multiset(r)[c] == if Matches(c, ToLower(Trim(q))) then multiset(cs)[c] else 0
    ensures !AllSpace(q) ==> forall c :: c in r <==> c in cs && Matches(c, ToLower(Trim(q)))
    ensures SubsequenceOf(r, cs)
  {
    BlankIffAllSpace(q);
    var term := ToLower(Trim(q));
    if term == "" then [] else Filter(cs, term)
  }

  /** Searching by a client's exact DNI finds that client, whatever the letter case and surrounding blanks. */
  lemma BuscarFindsDni(cs: seq<Cliente>, q: string, i: int)
    requires 0 <= i < |cs| && Trim(q) != "" && ToLower(cs[i].dni) == ToLower(Trim(q))
    ensures cs[i] in Buscar(cs, q)
  {
    BlankIffAllSpace(q);
  }

  /** Lower-casing keeps white space and turns nothing else into it. */
  lemma LowerCharSpace(c: char)
    ensures IsSpace(LowerChar(c)) <==> IsSpace(c)
  {
  }

  lemma {:induction false} TrimStartLower(s: string)
    ensures TrimStart(ToLower(s)) == ToLower(TrimStart(s))
    decreases |s|
  {
    if s != "" {
      LowerCharSpace(s[0]);
      assert ToLower(s)[1..] == ToLower(s[1..]);
      TrimStartLower(s[1..]);
    }
  }

  lemma {:induction false} TrimEndLower(s: string)
    ensures TrimEnd(ToLower(s)) == ToLower(TrimEnd(s))
    decreases |s|
  {
    if s != "" {
      LowerCharSpace(s[|s| - 1]);
      assert ToLower(s)[..|s| - 1] == ToLower(s[..|s| - 1]);
      TrimEndLower(s[..|s| - 1]);
    }
  }

  lemma LowerIdempotent(s: string)
    ensures ToLower(ToLower(s)) == ToLower(s)
  {
  }

  /** The letter case of the query does not matter. */
  lemma BuscarIgnoresCase(cs: seq<Cliente>, q: string)
    ensures Buscar(cs, ToLower(q)) == Buscar(cs, q)
  {
    TrimStartLower(q);
    TrimEndLower(TrimStart(q));
    LowerIdempotent(Trim(q));
  }
}
