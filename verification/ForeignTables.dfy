/**
 `list_foreign_tables`: which non-lhpc nftables tables are reported as able to affect the box's
 own traffic, and why a table that is not reported cannot drop any of it.
 */
module ForeignTables {
  import opened Options
  import Ordering

  /** A JSON value of the listing: only object keys and nesting matter here. */
  datatype Node = Obj(fields: seq<(string, Node)>) | Arr(items: seq<Node>) | Leaf

  datatype HookField = NoHook | Hook(name: string) | HookNotText

  datatype Entry =
    | Malformed                                   // not an object, or a body that is not one
    | Table(family: Option<string>, name: Option<string>)
    | Chain(cFamily: Option<string>, cTable: Option<string>, cName: Option<string>,
            hook: HookField, kind: Option<string>, policy: Option<string>)
    | RuleOf(rFamily: Option<string>, rTable: Option<string>, rChain: Option<string>, expr: Node)
    | Unrelated                                   // sets, maps, metainfo, ...

  type Key = (string, string)

  datatype Base = Base(name: string, hook: string, kind: string, policy: Option<string>)

  const CHAIN_TYPES := {"filter", "nat", "route"}
  const STOP_VERDICTS := {"drop", "reject", "jump", "goto", "queue", "vmap"}
  const LHPC: Key := ("inet", "lhpc")

  /** `_has_stop_verdict`: a stop key anywhere in the tree. */
  predicate HasStop(n: Node)
  {
    match n
    case Obj(fields) =>
      exists i :: 0 <= i < |fields| && (fields[i].0 in STOP_VERDICTS || HasStop(fields[i].1))
    case Arr(items) => exists i :: 0 <= i < |items| && HasStop(items[i])
    case Leaf => false
  }

  function Or(t: Option<string>, other: string): string { if t.Some? then t.value else other }

  function TableKey(e: Entry): Key
    requires e.Table?
  {
    (Or(e.family, "?"), Or(e.name, "?"))
  }

  /** An entry that cannot be attributed to a table taints every table. */
  predicate Unattributable(e: Entry)
  {
    e.Malformed? || (e.Chain? && (e.cFamily.None? || e.cTable.None?)) ||
    (e.RuleOf? && (e.rFamily.None? || e.rTable.None? || e.rChain.None?))
  }

  predicate GoodBase(e: Entry)
  {
    e.Chain? && !Unattributable(e) && e.hook.Hook? && e.kind.Some? && e.kind.value in CHAIN_TYPES && e.cName.Some?
  }

  function BaseOf(e: Entry): Base
    requires GoodBase(e)
  {
    Base(e.cName.value, e.hook.name, e.kind.value, e.policy)
  }

  predicate BadFor(e: Entry, key: Key)
  {
    (e.Table? && TableKey(e) == key && (e.family.None? || e.name.None?)) ||
    (e.Chain? && !Unattributable(e) && (e.cFamily.value, e.cTable.value) == key && !e.hook.NoHook? && !GoodBase(e))
  }

  predicate BaseFor(e: Entry, key: Key)
  {
    GoodBase(e) && (e.cFamily.value, e.cTable.value) == key
  }

  predicate StopFor(e: Entry, key: Key, chain: string)
  {
    e.RuleOf? && !Unattributable(e) && (e.rFamily.value, e.rTable.value) == key && e.rChain.value == chain &&
    HasStop(e.expr)
  }

  predicate Stops(es: seq<Entry>, key: Key, chain: string)
  {
    exists e :: e in es && StopFor(e, key, chain)
  }

  predicate Harmless(b: Base, stops: bool)
  {
    b.hook == "forward" ||
    (b.hook == "postrouting" && b.kind == "nat" && b.policy == Some("accept") && !stops)
  }

  predicate HasTable(es: seq<Entry>, key: Key) { exists e :: e in es && e.Table? && TableKey(e) == key }
  predicate Tainted(es: seq<Entry>) { exists e :: e in es && Unattributable(e) }
  predicate HasBad(es: seq<Entry>, key: Key) { exists e :: e in es && BadFor(e, key) }
  predicate HasBase(es: seq<Entry>, key: Key, b: Base) { exists e :: e in es && BaseFor(e, key) && BaseOf(e) == b }

  predicate Excused(es: seq<Entry>, key: Key)
  {
    (exists e :: e in es && BaseFor(e, key)) &&
    (forall e :: e in es && BaseFor(e, key) ==>
      Harmless(BaseOf(e), Stops(es, key, BaseOf(e).name)))
  }

  /** Stated over the entries as a set: their order in the listing plays no part. */
  predicate Reported(es: seq<Entry>, key: Key)
  {
    key != LHPC && HasTable(es, key) && (Tainted(es) || HasBad(es, key) || !Excused(es, key))
  }

  /** What one more entry adds to each reading of the listing. */
  lemma {:induction false} OneMore(es: seq<Entry>, e: Entry)
    ensures forall k :: HasTable(es + [e], k) <==> HasTable(es, k) || (e.Table? && TableKey(e) == k)
    ensures Tainted(es + [e]) <==> Tainted(es) || Unattributable(e)
    ensures forall k :: HasBad(es + [e], k) <==> HasBad(es, k) || BadFor(e, k)
    ensures forall k, c :: Stops(es + [e], k, c) <==> Stops(es, k, c) || StopFor(e, k, c)
    ensures forall k, b :: HasBase(es + [e], k, b) <==> HasBase(es, k, b) || (BaseFor(e, k) && BaseOf(e) == b)
  {
    assert forall x :: x in es + [e] <==> x in es || x == e;
  }

  class Scan {
    var tables: seq<Key>
    var base: map<Key, seq<Base>>
    var bad: set<Key>
    var stops: set<(string, string, string)>
    var unattributable: bool

    constructor ()
      ensures tables == [] && base == map[] && bad == {} && stops == {} && !unattributable
      ensures Describes([])
    {
      tables, base, bad, stops, unattributable := [], map[], {}, {}, false;
    }

    ghost predicate Describes(es: seq<Entry>)
      reads this
    {
      (forall k :: k in tables <==> k != LHPC && HasTable(es, k)) &&
      (unattributable <==> Tainted(es)) &&
      (forall k :: k != LHPC ==> (k in bad <==> HasBad(es, k))) &&
      (forall k: Key, c: string :: (k.0, k.1, c) in stops <==> Stops(es, k, c)) &&
      (forall k :: k in base ==> base[k] != []) &&
      (forall k, b :: k in base && b in base[k] <==> HasBase(es, k, b))
    }

    /** One entry of the ruleset. */
    method Note(e: Entry, ghost es: seq<Entry>)
      requires Describes(es)
      modifies this
      ensures Describes(es + [e])
    {
      OneMore(es, e);
      match e
      case Malformed => unattributable := true;
      case Table(family, name) =>
        var key := (Or(family, "?"), Or(name, "?"));
        if key != LHPC {
          tables := tables + [key];
          if family.None? || name.None? {
            bad := bad + {key};
          }
        }
      case Chain(family, table, name, hook, kind, policy) =>
        if family.None? || table.None? {
          unattributable := true;
        } else {
          var key := (family.value, table.value);
          if !hook.NoHook? {
            if hook.Hook? && kind.Some? && kind.value in CHAIN_TYPES && name.Some? {
              var b := Base(name.value, hook.name, kind.value, policy);
              base := base[key := (if key in base then base[key] else []) + [b]];
            } else {
              bad := bad + {key};
            }
          }
        }
      case RuleOf(family, table, chain, expr) =>
        if family.None? || table.None? || chain.None? {
          unattributable := true;
        } else if HasStop(expr) {
          stops := stops + {(family.value, table.value, chain.value)};
        }
      case Unrelated =>
    }
  }

  function NameOf(k: Key): string { k.0 + ":" + k.1 }
  function NameKey(k: Key): Ordering.Key { [Ordering.Text(NameOf(k))] }

  /** `sorted(names)`. */
  method SortedNames(names: seq<Key>) returns (out: seq<Key>)
    ensures forall k :: k in out <==> k in names
    ensures forall i, k :: 0 <= i < k < |out| ==> Ordering.TextLe(NameOf(out[i]), NameOf(out[k]))
  {
    out := Ordering.SortBy(names, NameKey);
    Ordering.SortKeepsMembers(names, NameKey);
    forall i, k | 0 <= i < k < |out| ensures Ordering.TextLe(NameOf(out[i]), NameOf(out[k])) {
      assert Ordering.KeyLe(NameKey(out[i]), NameKey(out[k]));
      Ordering.TextOrder(NameOf(out[i]), NameOf(out[k]));
    }
  }

  /** Exactly the reported tables, sorted by name. */
  method ListForeignTables(es: seq<Entry>) returns (names: seq<Key>)
    ensures forall k :: k in names <==> Reported(es, k)
    ensures forall i, k :: 0 <= i < k < |names| ==> Ordering.TextLe(NameOf(names[i]), NameOf(names[k]))
  {
    var found := FindForeignTables(es);
    names := SortedNames(found);
  }

  /** The reported tables, in the order of their table entries. */
  method FindForeignTables(es: seq<Entry>) returns (names: seq<Key>)
    ensures forall k :: k in names <==> Reported(es, k)
  {
    var scan := new Scan();
    for i := 0 to |es|
      invariant fresh(scan)
      invariant scan.Describes(es[..i])
    {
      assert es[..i + 1] == es[..i] + [es[i]];
      scan.Note(es[i], es[..i]);
    }
    assert es[..|es|] == es;
    names := [];
    var tables := scan.tables;
    for i := 0 to |tables|
      invariant fresh(scan) && tables == scan.tables && scan.Describes(es)
      invariant forall k :: k in names <==> k in tables[..i] && Reported(es, k)
    {
      var key := tables[i];
      assert key in tables && tables[..i + 1] == tables[..i] + [key];
      var excused := Excuses(scan, es, key);
      if scan.unattributable || key in scan.bad || !excused {
        names := names + [key];
      }
    }
  }

  /** Every base chain of the table is harmless, and there is one. */
  method Excuses(scan: Scan, ghost es: seq<Entry>, key: Key) returns (excused: bool)
    requires scan.Describes(es)
    ensures excused <==> Excused(es, key)
  {
    var chains := if key in scan.base then scan.base[key] else [];
    var harmless := forall b :: b in chains ==> Harmless(b, (key.0, key.1, b.name) in scan.stops);
    assert forall b :: b in chains <==> HasBase(es, key, b);
    assert forall b :: b in chains ==> ((key.0, key.1, b.name) in scan.stops <==> Stops(es, key, b.name));
    if chains != [] {
      assert HasBase(es, key, chains[0]);
    }
    forall e | e in es && BaseFor(e, key) ensures BaseOf(e) in chains {
      assert HasBase(es, key, BaseOf(e));
    }
    excused := chains != [] && harmless;
  }

  // --- what a table can do to a packet --------------------------------------------------------

  /** The statements of a rule: the fields of the objects in its expression list. */
  predicate Says(expr: Node, statement: string)
  {
    match expr
    case Arr(items) =>
      exists i, j :: 0 <= i < |items| && items[i].Obj? && 0 <= j < |items[i].fields| &&
        items[i].fields[j].0 == statement
    case _ => false
  }

  /** A name the listing gives, or leaves out. */
  predicate MayBe(t: Option<string>, s: string) { t.None? || t.value == s }

  /** A rule that is in the chain, or for all the listing says may be. */
  predicate MayBeIn(e: Entry, key: Key, chain: string)
  {
    e.RuleOf? && MayBe(e.rFamily, key.0) && MayBe(e.rTable, key.1) && MayBe(e.rChain, chain)
  }

  /**
   Some packet may be dropped, rejected, queued or sent elsewhere, to another chain or by a verdict
   map, by the rules of `chain`; matches are taken to hold or not.
   */
  predicate MayStop(es: seq<Entry>, key: Key, chain: string)
  {
    exists e :: e in es && MayBeIn(e, key, chain) &&
      (Says(e.expr, "drop") || Says(e.expr, "reject") || Says(e.expr, "queue") || Says(e.expr, "vmap") ||
       Says(e.expr, "jump") || Says(e.expr, "goto"))
  }

  /**
   The table hooks the packet path at `hook` and may end a packet there. An entry that cannot be read
   may be anything; so may what a chain of unknown name or type does.
   */
  predicate MayDropAt(es: seq<Entry>, key: Key, hook: string)
  {
    exists e :: e in es &&
      (e.Malformed? ||
       (e.Chain? && MayBe(e.cFamily, key.0) && MayBe(e.cTable, key.1) &&
        (e.hook == Hook(hook) || e.hook.HookNotText?) &&
        (e.policy != Some("accept") || e.kind.None? || e.kind.value !in CHAIN_TYPES || e.cName.None? ||
         MayStop(es, key, e.cName.value))))
  }

  lemma {:induction false} SaidIsFound(expr: Node, statement: string)
    requires Says(expr, statement) && statement in STOP_VERDICTS
    ensures HasStop(expr)
  {
    var i, j :| 0 <= i < |expr.items| && expr.items[i].Obj? && 0 <= j < |expr.items[i].fields| &&
      expr.items[i].fields[j].0 == statement;
    assert HasStop(expr.items[i]);
  }

  lemma {:induction false} QuietChainCannotStop(es: seq<Entry>, key: Key, chain: string)
    requires !Stops(es, key, chain) && !Tainted(es)
    ensures !MayStop(es, key, chain)
  {
    forall e | e in es && MayBeIn(e, key, chain)
      ensures forall s :: s in STOP_VERDICTS ==> !Says(e.expr, s)
    {
      assert !Unattributable(e) && !StopFor(e, key, chain);
      forall s | s in STOP_VERDICTS && Says(e.expr, s) ensures false {
        SaidIsFound(e.expr, s);
      }
    }
  }

  /** A table of the listing that is not reported cannot end a packet anywhere but in forward. */
  lemma {:induction false} UnreportedCannotDropOwnTraffic(es: seq<Entry>, key: Key, hook: string)
    requires HasTable(es, key) && key != LHPC && !Reported(es, key) && hook != "forward"
    ensures !MayDropAt(es, key, hook)
  {
    forall e | e in es && e.Chain? && MayBe(e.cFamily, key.0) && MayBe(e.cTable, key.1) &&
      (e.hook == Hook(hook) || e.hook.HookNotText?)
      ensures e.policy == Some("accept") && e.kind.Some? && e.kind.value in CHAIN_TYPES && e.cName.Some? &&
        !MayStop(es, key, e.cName.value)
    {
      assert !Unattributable(e) && !BadFor(e, key);
      assert BaseFor(e, key) && Harmless(BaseOf(e), Stops(es, key, e.cName.value));
      QuietChainCannotStop(es, key, e.cName.value);
    }
    forall e | e in es ensures !e.Malformed? {
      assert !Unattributable(e);
    }
  }

  // --- what is not reported, by chains and rules ------------------------------------------------------------

  /** Every object key of the tree. */
  function KeysOf(n: Node): set<string>
  {
    match n
    case Obj(fields) =>
      (set i | 0 <= i < |fields| :: fields[i].0) + (set i, k | 0 <= i < |fields| && k in KeysOf(fields[i].1) :: k)
    case Arr(items) => set i, k | 0 <= i < |items| && k in KeysOf(items[i]) :: k
    case Leaf => {}
  }

  predicate StopKey(k: string) { k in ["drop", "reject", "jump", "goto", "queue", "vmap"] }

  /** A rule stops packets as soon as one of the six keys stands anywhere in it. */
  lemma {:induction false} StopsByKeys(n: Node)
    ensures HasStop(n) <==> exists k :: k in KeysOf(n) && StopKey(k)
    decreases n
  {
    assert forall k :: StopKey(k) <==> k in STOP_VERDICTS;
    match n
    case Obj(fields) =>
      forall i | 0 <= i < |fields|
        ensures HasStop(fields[i].1) <==> exists k :: k in KeysOf(fields[i].1) && StopKey(k)
      {
        StopsByKeys(fields[i].1);
      }
      if HasStop(n) {
        var i :| 0 <= i < |fields| && (fields[i].0 in STOP_VERDICTS || HasStop(fields[i].1));
        if fields[i].0 in STOP_VERDICTS {
          assert fields[i].0 in KeysOf(n);
        } else {
          var k :| k in KeysOf(fields[i].1) && StopKey(k);
          assert k in KeysOf(n);
        }
      }
      forall k | k in KeysOf(n) && StopKey(k) ensures HasStop(n) {
        if i :| 0 <= i < |fields| && k in KeysOf(fields[i].1) { assert HasStop(fields[i].1); }
      }
    case Arr(items) =>
      forall i | 0 <= i < |items|
        ensures HasStop(items[i]) <==> exists k :: k in KeysOf(items[i]) && StopKey(k)
      {
        StopsByKeys(items[i]);
      }
      forall k | k in KeysOf(n) && StopKey(k) ensures HasStop(n) {
        var i :| 0 <= i < |items| && k in KeysOf(items[i]);
        assert HasStop(items[i]);
      }
    case Leaf =>
  }

  /** Everything in the listing says which table and chain it belongs to. */
  predicate AllAttributed(es: seq<Entry>)
  {
    forall e :: e in es ==>
      match e
      case Malformed => false
      case Chain(family, table, _, _, _, _) => family.Some? && table.Some?
      case RuleOf(family, table, chain, _) => family.Some? && table.Some? && chain.Some?
      case _ => true
  }

  /** A hooked chain that is only on the forward path, or masquerades after routing and stops nothing. */
  predicate ForwardOrMasquerade(es: seq<Entry>, e: Entry)
  {
    e.Chain? && e.hook.Hook? && e.cName.Some? && e.kind.Some? && e.kind.value in ["filter", "nat", "route"] &&
    (e.hook.name == "forward" ||
     (e.hook.name == "postrouting" && e.kind.value == "nat" && e.policy == Some("accept") &&
      forall r :: r in es && RuleIn(r, e) ==> !HasStop(r.expr)))
  }

  /** The rule is one of the chain. */
  predicate RuleIn(r: Entry, e: Entry)
  {
    r.RuleOf? && e.Chain? && r.rFamily == e.cFamily && r.rTable == e.cTable && r.rChain == e.cName
  }

  predicate ChainOf(e: Entry, key: Key)
  {
    e.Chain? && !e.hook.NoHook? && e.cFamily == Some(key.0) && e.cTable == Some(key.1)
  }

  /**
   A table of the listing is passed over exactly when nothing is unattributable, its own entry is whole,
   and it has hooked chains, all of them forward chains or quiet masquerading ones.
   */
  lemma {:induction false} PassedOverExactly(es: seq<Entry>, key: Key)
    requires HasTable(es, key) && key != LHPC
    ensures !Reported(es, key) <==>
      AllAttributed(es) &&
      (forall e :: e in es && e.Table? && TableKey(e) == key ==> e.family.Some? && e.name.Some?) &&
      (exists e :: e in es && ChainOf(e, key)) &&
      (forall e :: e in es && ChainOf(e, key) ==> ForwardOrMasquerade(es, e))
  {
    forall e | e in es && BaseFor(e, key)
      ensures Stops(es, key, BaseOf(e).name) <==>
        exists r :: r in es && RuleIn(r, e) && HasStop(r.expr)
    {
      if Stops(es, key, BaseOf(e).name) { var r :| r in es && StopFor(r, key, BaseOf(e).name); }
      if r :| r in es && RuleIn(r, e) && HasStop(r.expr) { assert StopFor(r, key, BaseOf(e).name); }
    }
    assert AllAttributed(es) <==> !Tainted(es) by {
      forall e | e in es && Unattributable(e) ensures !AllAttributed(es) {}
    }
    if !Reported(es, key) {
      var b :| b in es && BaseFor(b, key);
      assert ChainOf(b, key);
      forall e | e in es && ChainOf(e, key) ensures ForwardOrMasquerade(es, e) { assert !BadFor(e, key); }
    }
  }

  /** A listing whose entries are rearranged reports the same tables. */
  lemma {:induction false} EntryOrderDoesNotMatter(a: seq<Entry>, b: seq<Entry>, key: Key)
    requires forall e :: e in a <==> e in b
    ensures Reported(a, key) <==> Reported(b, key)
  {
    forall chain ensures Stops(a, key, chain) <==> Stops(b, key, chain) {}
  }
}
