/**
 * The Usage collection: one document per provider holding its cumulative
 * earnings. Documents are kept in some order (the sums do not depend on
 * it); an upsert that finds no document adds one at the end.
 */
module Ledger {
  import opened Wrappers

  /** A document of the Usage collection. */
  datatype Usage = Usage(provider: string, earnings: int)

  /** The providers that have a document. */
  function Providers(docs: seq<Usage>): (r: set<string>)
    ensures forall i :: 0 <= i < |docs| ==> docs[i].provider in r
    ensures forall p :: p in r ==> exists i :: 0 <= i < |docs| && docs[i].provider == p
  {
    if docs == [] then {} else {docs[0].provider} + Providers(docs[1..])
  }

  /** At most one document per provider, as the upsert keyed on `provider` keeps it. */
  predicate UniqueProviders(docs: seq<Usage>) {
    docs == [] || (docs[0].provider !in Providers(docs[1..]) && UniqueProviders(docs[1..]))
  }

  /** findOne({provider}): the earnings of the first document for `p`, if any. */
  function Find(docs: seq<Usage>, p: string): (r: Option<int>)
    ensures r.None? <==> p !in Providers(docs)
    ensures r.Some? ==> exists i :: 0 <= i < |docs| && docs[i] == Usage(p, r.value)
  {
    if docs == [] then None
    else if docs[0].provider == p then Some(docs[0].earnings)
    else Find(docs[1..], p)
  }

  /** The balance GET /api/withdraw/:provider reports: 0 for a provider without a document. */
  function Balance(docs: seq<Usage>, p: string): int {
    match Find(docs, p)
    case Some(e) => e
    case None => 0
  }

  /** The earnings of every document added up, as the summary's reduce does. */
  function Total(docs: seq<Usage>): int {
    if docs == [] then 0 else docs[0].earnings + Total(docs[1..])
  }

  /**
   * findOneAndUpdate({provider: p}, {$inc: {earnings: amount}}, {upsert: true}):
   * the first document for `p` grows by `amount`; without one, a document
   * holding `amount` is appended.
   */
  function Increment(docs: seq<Usage>, p: string, amount: int): (r: seq<Usage>)
  {
    if docs == [] then [Usage(p, amount)]
    else if docs[0].provider == p then [Usage(p, docs[0].earnings + amount)] + docs[1..]
    else [docs[0]] + Increment(docs[1..], p, amount)
  }

  /** The incremented provider's balance grows by `amount`; every other balance stays. */
  lemma {:induction false} IncrementBalance(docs: seq<Usage>, p: string, amount: int, q: string)
    ensures Balance(Increment(docs, p, amount), q) == Balance(docs, q) + (if q == p then amount else 0)
  {
    if docs != [] && docs[0].provider != p {
      var rest := Increment(docs[1..], p, amount);
      assert ([docs[0]] + rest)[1..] == rest;
      IncrementBalance(docs[1..], p, amount, q);
    }
  }

  /** An increment adds exactly `amount` to the summary total. */
  lemma {:induction false} IncrementTotal(docs: seq<Usage>, p: string, amount: int)
    ensures Total(Increment(docs, p, amount)) == Total(docs) + amount
  {
    if docs != [] && docs[0].provider != p {
      var rest := Increment(docs[1..], p, amount);
      assert ([docs[0]] + rest)[1..] == rest;
      IncrementTotal(docs[1..], p, amount);
    }
  }

  /** An increment creates a document only for a provider that had none, and keeps one per provider. */
  lemma {:induction false} IncrementProviders(docs: seq<Usage>, p: string, amount: int)
    ensures Providers(Increment(docs, p, amount)) == Providers(docs) + {p}
    ensures |Increment(docs, p, amount)| == if p in Providers(docs) then |docs| else |docs| + 1
    ensures UniqueProviders(docs) ==> UniqueProviders(Increment(docs, p, amount))
  {
    if docs == [] {
    } else if docs[0].provider == p {
      var r := Increment(docs, p, amount);
      assert r[1..] == docs[1..];
    } else {
      var rest := Increment(docs[1..], p, amount);
      assert ([docs[0]] + rest)[1..] == rest;
      IncrementProviders(docs[1..], p, amount);
    }
  }

  /** An unknown provider's balance is 0, never an error. */
  lemma UnknownProviderHasZeroBalance(docs: seq<Usage>, p: string)
    requires forall i :: 0 <= i < |docs| ==> docs[i].provider != p
    ensures Balance(docs, p) == 0
  {
  }
}
