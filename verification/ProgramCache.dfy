/**
 * The compiled-program cache, keyed by rule id and checked by version, under every interleaving of rule
 * administration with lookups that may work on stale copies of a rule. A lookup always answers what
 * compiling its copy afresh would answer.
 */
module ProgramCache {
  import opened Rows
  import opened Text
  import opened Store

  const MAX_CACHE_ITEMS := 10000

  /** The part of a rule that decides its program. */
  datatype Content = Content(combine: string, conditions: seq<Condition>, expression: string)

  function ContentOf(r: Rule): Content { Content(r.combine, r.conditions, r.expression) }

  /** The expression language: the effective expression of a rule, or None when it is refused. */
  type Language = Content -> Option<string>

  datatype Program = Program(expr: string, version: int)

  function Compile(lang: Language, r: Rule): Option<Program> {
    match lang(ContentOf(r))
    case Some(expr) => Some(Program(expr, r.version))
    case None => None
  }

  type Cache = map<string, Program>

  predicate Hits(cache: Cache, r: Rule) { r.id in cache && cache[r.id].version == r.version }

  /** The critical section that ends a miss: a full cache starts over. */
  function Insert(cache: Cache, id: string, p: Program): Cache {
    (if |cache| >= MAX_CACHE_ITEMS then map[] else cache)[id := p]
  }

  function Settle(lang: Language, cache: Cache, r: Rule): Cache {
    match Compile(lang, r)
    case Some(p) => Insert(cache, r.id, p)
    case None => cache - {r.id}
  }

  class Engine {
    const lang: Language
    var cache: Cache

    constructor (lang: Language)
      ensures this.lang == lang && cache == map[]
    {
      this.lang := lang;
      cache := map[];
    }

    method Forget(id: string)
      modifies this
      ensures cache == old(cache) - {id}
    {
      cache := cache - {id};
    }

    /** A rule without an id is compiled and not cached; an invalid rule is never cached. */
    method Program(r: Rule) returns (p: Option<Program>)
      modifies this
      ensures r.id == "" ==> p == Compile(lang, r) && cache == old(cache)
      ensures r.id != "" && Hits(old(cache), r) ==> p == Some(old(cache)[r.id]) && cache == old(cache)
      ensures r.id != "" && !Hits(old(cache), r) ==>
                p == Compile(lang, r) && cache == Settle(lang, old(cache), r)
      ensures |old(cache)| <= MAX_CACHE_ITEMS ==> |cache| <= MAX_CACHE_ITEMS
    {
      if r.id == "" { return Compile(lang, r); }
      if r.id in cache && cache[r.id].version == r.version { return Some(cache[r.id]); }
      p := Compile(lang, r);
      if |cache| <= MAX_CACHE_ITEMS { SettleBound(lang, cache, r); }
      if p.None? {
        Forget(r.id);
        return;
      }
      if |cache| >= MAX_CACHE_ITEMS { cache := map[]; }
      cache := cache[r.id := p.value];
    }
  }

  lemma SettleBound(lang: Language, cache: Cache, r: Rule)
    requires |cache| <= MAX_CACHE_ITEMS
    ensures |Settle(lang, cache, r)| <= MAX_CACHE_ITEMS
  {
    match Compile(lang, r)
    case Some(p) =>
      var base: Cache := if |cache| >= MAX_CACHE_ITEMS then map[] else cache;
      assert base[r.id := p].Keys == base.Keys + {r.id};
      CardinalityGrows(base.Keys, r.id);
    case None =>
      CardinalityShrinks(cache, r.id);
  }

  lemma CardinalityGrows(keys: set<string>, id: string)
    ensures |keys + {id}| <= |keys| + 1
  {
    if id in keys { assert keys + {id} == keys; }
  }

  lemma CardinalityShrinks(cache: Cache, id: string)
    ensures |cache - {id}| <= |cache|
  {
    assert (cache - {id}).Keys == cache.Keys - {id};
    assert |(cache - {id}).Keys| <= |cache.Keys|;
  }

  // ------------------------------------------------------------ the whole system

  datatype Answer = Answer(r: Rule, p: Option<Program>)

  /**
   * The rules table, the cache, every row ever stored, the ids ever used, the lookups that missed and are
   * compiling, and the answers given.
   */
  datatype Sys = Sys(
    db: Db, cache: Cache, stored: set<Rule>, used: set<string>, pending: map<nat, Rule>, answers: seq<Answer>)

  /** One critical section or one store call of some caller. */
  datatype Event =
    | Add(r: Rule, now: Time)
    | Edit(r: Rule, now: Time)
    | Remove(tenant: string, id: string)
    | Evict(id: string)
    | Hit(r: Rule)
    | Miss(caller: nat, r: Rule)
    | Finish(caller: nat)

  /** Callers create rules under minted ids and look up copies of rows that were stored at some time. */
  predicate Enabled(s: Sys, e: Event) {
    match e
    case Add(r, _) => r.id != "" && r.id !in s.used
    case Hit(r) => r in s.stored && Hits(s.cache, r)
    case Miss(c, r) => r in s.stored && !Hits(s.cache, r) && c !in s.pending
    case Finish(c) => c in s.pending
    case _ => true
  }

  function RowsOf(rules: map<string, Rule>): set<Rule> { set k | k in rules :: rules[k] }

  function Stored(s: Sys, db: Db): Sys { s.(db := db, stored := s.stored + RowsOf(db.rules)) }

  function Next(lang: Language, s: Sys, e: Event): Sys
    requires Enabled(s, e)
  {
    match e
    case Add(r, now) => Stored(s.(used := s.used + {r.id}), CreateRule(s.db, r, now).db)
    case Edit(r, now) => Stored(s, UpdateRule(s.db, r, now).db)
    case Remove(tenant, id) => Stored(s, DeleteRule(s.db, tenant, id).db)
    case Evict(id) => s.(cache := s.cache - {id})
    case Hit(r) => s.(answers := s.answers + [Answer(r, Some(s.cache[r.id]))])
    case Miss(c, r) => s.(pending := s.pending[c := r])
    case Finish(c) =>
      var r := s.pending[c];
      s.(cache := Settle(lang, s.cache, r), pending := s.pending - {c},
         answers := s.answers + [Answer(r, Compile(lang, r))])
  }

  /** A run: states linked by enabled events, from nothing stored and nothing cached. */
  ghost predicate IsRun(lang: Language, states: seq<Sys>, events: seq<Event>) {
    && |states| == |events| + 1 && states[0] == START
    && forall i :: 0 <= i < |events| ==>
      Enabled(states[i], events[i]) && states[i + 1] == Next(lang, states[i], events[i])
  }

  const START := Sys(EMPTY, map[], {}, {}, map[], [])

  /** Id and version determine the content, for every row ever stored. */
  predicate Versioned(s: Sys) {
    && (forall q, r :: q in s.stored && r in s.stored && q.id == r.id && q.version == r.version ==>
          ContentOf(q) == ContentOf(r))
    && (forall k :: k in s.db.rules ==> s.db.rules[k].id == k && s.db.rules[k] in s.stored && k in s.used)
    && (forall q :: q in s.stored ==> q.id in s.used && (q.id in s.db.rules ==> q.version <= s.db.rules[q.id].version))
  }

  /** Each cached program is the program of some row that was stored under that id with that version. */
  ghost predicate Coherent(lang: Language, s: Sys) {
    && (forall id :: id in s.cache ==> exists q :: q in s.stored && q.id == id && Compile(lang, q) == Some(s.cache[id]))
    && (forall c :: c in s.pending ==> s.pending[c] in s.stored)
    && |s.cache| <= MAX_CACHE_ITEMS
  }

  predicate Faithful(lang: Language, s: Sys) {
    forall i :: 0 <= i < |s.answers| ==> s.answers[i].p == Compile(lang, s.answers[i].r)
  }

  ghost predicate Inv(lang: Language, s: Sys) { Versioned(s) && Coherent(lang, s) && Faithful(lang, s) }

  lemma AddKeepsVersions(s: Sys, r: Rule, now: Time)
    requires Versioned(s) && r.id !in s.used
    ensures Versioned(Stored(s.(used := s.used + {r.id}), CreateRule(s.db, r, now).db))
  {
  }

  lemma EditKeepsVersions(s: Sys, r: Rule, now: Time)
    requires Versioned(s)
    ensures Versioned(Stored(s, UpdateRule(s.db, r, now).db))
  {
    var d := UpdateRule(s.db, r, now).db;
    if d != s.db {
      var row := d.rules[r.id];
      assert d.rules == s.db.rules[r.id := row] && row.version == s.db.rules[r.id].version + 1;
      assert RowsOf(d.rules) <= s.stored + {row};
      assert row in RowsOf(d.rules);
    } else {
      assert RowsOf(d.rules) <= s.stored;
      assert s.stored + RowsOf(d.rules) == s.stored;
    }
  }

  lemma RemoveKeepsVersions(s: Sys, tenant: string, id: string)
    requires Versioned(s)
    ensures Versioned(Stored(s, DeleteRule(s.db, tenant, id).db))
  {
    assert RowsOf(DeleteRule(s.db, tenant, id).db.rules) <= s.stored;
    assert s.stored + RowsOf(DeleteRule(s.db, tenant, id).db.rules) == s.stored;
  }

  /** Coherence only asks for rows that were stored, and none is ever forgotten. */
  lemma CoherentGrows(lang: Language, s: Sys, t: Sys)
    requires Coherent(lang, s) && t.cache == s.cache && t.pending == s.pending && s.stored <= t.stored
    ensures Coherent(lang, t)
  {
  }

  lemma FinishKeepsCoherence(lang: Language, s: Sys, c: nat)
    requires Coherent(lang, s) && c in s.pending
    ensures Coherent(lang, Next(lang, s, Finish(c)))
  {
    var r, t := s.pending[c], Next(lang, s, Finish(c));
    SettleBound(lang, s.cache, r);
    forall id | id in t.cache
      ensures exists q :: q in t.stored && q.id == id && Compile(lang, q) == Some(t.cache[id])
    {
      if id == r.id && Compile(lang, r).Some? {
        assert r in t.stored && Compile(lang, r) == Some(t.cache[id]);
      } else {
        assert id in s.cache && t.cache[id] == s.cache[id];
      }
    }
  }

  lemma HitIsCompile(lang: Language, s: Sys, r: Rule)
    requires Versioned(s) && Coherent(lang, s) && r in s.stored && Hits(s.cache, r)
    ensures Some(s.cache[r.id]) == Compile(lang, r)
  {
    var q :| q in s.stored && q.id == r.id && Compile(lang, q) == Some(s.cache[r.id]);
    assert q.version == r.version;
  }

  lemma EvictKeepsCoherence(lang: Language, s: Sys, id: string)
    requires Coherent(lang, s)
    ensures Coherent(lang, s.(cache := s.cache - {id}))
  {
    CardinalityShrinks(s.cache, id);
  }

  lemma MissKeepsCoherence(lang: Language, s: Sys, c: nat, r: Rule)
    requires Coherent(lang, s) && r in s.stored
    ensures Coherent(lang, s.(pending := s.pending[c := r]))
  {
  }

  lemma NextKeepsInv(lang: Language, s: Sys, e: Event)
    requires Inv(lang, s) && Enabled(s, e)
    ensures Inv(lang, Next(lang, s, e))
  {
    hide Versioned, Coherent, CreateRule, UpdateRule, DeleteRule, Compile, Settle, RowsOf, Hits;
    var t := Next(lang, s, e);
    match e
    case Add(r, now) => AddKeepsVersions(s, r, now); CoherentGrows(lang, s, t);
    case Edit(r, now) => EditKeepsVersions(s, r, now); CoherentGrows(lang, s, t);
    case Remove(tenant, id) => RemoveKeepsVersions(s, tenant, id); CoherentGrows(lang, s, t);
    case Evict(id) => EvictKeepsCoherence(lang, s, id); SameRows(s, t);
    case Hit(r) => HitIsCompile(lang, s, r); SameRows(s, t); CoherentGrows(lang, s, t);
    case Miss(c, r) => MissKeepsCoherence(lang, s, c, r); SameRows(s, t);
    case Finish(c) => FinishKeepsCoherence(lang, s, c); SameRows(s, t);
  }

  lemma SameRows(s: Sys, t: Sys)
    requires Versioned(s) && t.db == s.db && t.stored == s.stored && t.used == s.used
    ensures Versioned(t)
  {
  }

  /**
   * In every run of rule administration and lookups, however interleaved, every lookup answered what
   * compiling its copy of the rule afresh answers, and the cache never exceeds its bound.
   */
  lemma {:induction false} LookupsAreFaithful(lang: Language, states: seq<Sys>, events: seq<Event>, i: nat)
    requires IsRun(lang, states, events) && i < |states|
    ensures Inv(lang, states[i])
    ensures forall a :: a in states[i].answers ==> a.p == Compile(lang, a.r)
    ensures |states[i].cache| <= MAX_CACHE_ITEMS
  {
    hide Next, Enabled, Versioned, Compile;
    if i > 0 {
      LookupsAreFaithful(lang, states, events, i - 1);
      NextKeepsInv(lang, states[i - 1], events[i - 1]);
    } else {
      StartInv(lang);
    }
  }

  lemma StartInv(lang: Language)
    ensures Inv(lang, START)
  {
  }
}
