/** Looking for a caller-supplied agent instance key anywhere in a value that may share and contain itself. */
module InstanceKeySearch {

  /** A primitive or null, or a reference to an object on the heap. */
  datatype Value = Primitive | Ref(id: nat)

  datatype Object = Array(items: seq<Value>) | Record(fields: seq<(string, Value)>)

  type Heap = map<nat, Object>

  function Children(o: Object): seq<Value> {
    match o
    case Array(items) => items
    case Record(fields) => seq(|fields|, i requires 0 <= i < |fields| => fields[i].1)
  }

  /** References lead to objects. */
  predicate Closed(heap: Heap) {
    forall id, i :: id in heap && 0 <= i < |Children(heap[id])| ==> Resolves(heap, Children(heap[id])[i])
  }

  predicate Resolves(heap: Heap, v: Value) {
    v.Ref? ==> v.id in heap
  }

  function Lower(c: char): char {
    if 'A' <= c <= 'Z' then c - 'A' + 'a' else c
  }

  predicate IsSeparator(c: char) {
    c == '-' || c == '_'
  }

  /** The key without dashes and underscores, in lower case. Beyond ASCII only the Kelvin sign and the dotted
      capital I fold to something with an ASCII letter, a k and an i with a combining dot; the key that is looked for
      has neither a k nor a combining mark, so such a character cannot change the comparison. */
  function Normalized(key: string): string {
    if key == "" then ""
    else
      var n := |key| - 1;
      Normalized(key[..n]) + if IsSeparator(key[n]) then "" else [Lower(key[n])]
  }

  predicate IsInstanceKey(key: string) {
    Normalized(key) == "agentinstanceid"
  }

  /** The letters of the word stand in the key in order, in whatever case, at the given places; between them are only
      dashes and underscores. */
  ghost predicate Spells(key: string, word: string, places: seq<int>) {
    && |places| == |word|
    && (forall i :: 0 <= i < |places|
          ==> 0 <= places[i] < |key| && !IsSeparator(key[places[i]])
              && (key[places[i]] == word[i]
                  || ('A' <= key[places[i]] <= 'Z' && key[places[i]] as int + 32 == word[i] as int)))
    && (forall i, j :: 0 <= i < j < |places| ==> places[i] < places[j])
    && forall n :: 0 <= n < |key| && !IsSeparator(key[n]) ==> n in places
  }

  /** A key is an instance key exactly when it spells the words, however they are separated and capitalised. */
  lemma {:induction false} InstanceKeyIff(key: string)
    ensures IsInstanceKey(key) <==> exists places :: Spells(key, "agentinstanceid", places)
  {
    PlainWord();
    NormalizedIff(key, "agentinstanceid");
    hide Spells;
  }

  lemma {:induction false} PlainWord()
    ensures NoCapitals("agentinstanceid")
  {
  }

  predicate NoCapitals(word: string) {
    forall i :: 0 <= i < |word| ==> !('A' <= word[i] <= 'Z')
  }

  lemma {:induction false} NormalizedIff(key: string, word: string)
    requires NoCapitals(word)
    ensures Normalized(key) == word <==> exists places :: Spells(key, word, places)
  {
    if Normalized(key) == word {
      var places := NormalizedSpells(key);
    }
    if places :| Spells(key, word, places) {
      SpellsNormalized(key, word, places);
    }
    hide Spells, Normalized;
  }

  lemma {:induction false} NormalizedSpells(key: string) returns (places: seq<int>)
    ensures Spells(key, Normalized(key), places)
  {
    if key == "" {
      places := [];
    } else {
      var n := |key| - 1;
      places := NormalizedSpells(key[..n]);
      SpellsNext(key, Normalized(key[..n]), places);
      if !IsSeparator(key[n]) {
        places := places + [n];
      }
      hide Spells;
    }
  }

  lemma {:induction false} SpellsNext(key: string, word: string, places: seq<int>)
    requires key != "" && Spells(key[..|key| - 1], word, places)
    ensures var n := |key| - 1;
            if IsSeparator(key[n]) then Spells(key, word, places) else Spells(key, word + [Lower(key[n])], places + [n])
  {
    var n := |key| - 1;
    assert forall i :: 0 <= i < n ==> key[..n][i] == key[i];
    if !IsSeparator(key[n]) {
      var longer, more := word + [Lower(key[n])], places + [n];
      assert more[|places|] == n;
      assert forall i :: 0 <= i < |places| ==> more[i] == places[i] && longer[i] == word[i];
    }
  }

  lemma {:induction false} SpellsNormalized(key: string, word: string, places: seq<int>)
    requires NoCapitals(word) && Spells(key, word, places)
    ensures Normalized(key) == word
  {
    hide Spells, NoCapitals, Lower;
    if key == "" {
      NoneSpelled(key, word, places);
    } else {
      var n, m := |key| - 1, |places| - 1;
      SpellsPrefix(key, word, places);
      if IsSeparator(key[n]) {
        SpellsNormalized(key[..n], word, places);
      } else {
        SpellsNormalized(key[..n], word[..m], places[..m]);
        assert word == word[..m] + [word[m]];
      }
    }
  }

  lemma {:induction false} NoneSpelled(key: string, word: string, places: seq<int>)
    requires key == "" && Spells(key, word, places)
    ensures word == ""
  {
    NonePlaced(places, |key|);
  }

  lemma {:induction false} NonePlaced(places: seq<int>, n: nat)
    requires forall i :: 0 <= i < |places| ==> 0 <= places[i] < n
    ensures places == [] || n > 0
  {
    if places != [] {
      assert places[0] < n;
    }
  }

  lemma {:induction false} SpellsPrefix(key: string, word: string, places: seq<int>)
    requires NoCapitals(word) && Spells(key, word, places) && key != ""
    ensures var n, m := |key| - 1, |places| - 1;
            if IsSeparator(key[n]) then Spells(key[..n], word, places)
            else && 0 <= m == |word| - 1 && Lower(key[n]) == word[m] && Spells(key[..n], word[..m], places[..m])
                 && NoCapitals(word[..m])
  {
    var n, m := |key| - 1, |places| - 1;
    if IsSeparator(key[n]) {
      assert forall i :: 0 <= i <= m ==> places[i] != n;
    } else {
      LastPlace(key, word, places);
      var fewer, start := places[..m], key[..n];
      assert forall i :: 0 <= i < m ==> fewer[i] == places[i] && places[i] < n && start[places[i]] == key[places[i]];
      assert forall k :: 0 <= k < n && k in places ==> k in fewer;
    }
  }

  /** A key that ends with a letter ends with the word's last. */
  lemma {:induction false} LastPlace(key: string, word: string, places: seq<int>)
    requires NoCapitals(word) && Spells(key, word, places) && key != "" && !IsSeparator(key[|key| - 1])
    ensures places != [] && places[|places| - 1] == |key| - 1 && Lower(key[|key| - 1]) == word[|places| - 1]
  {
    var n, m := |key| - 1, |places| - 1;
    assert n in places;
    var i :| 0 <= i <= m && places[i] == n;
    assert places[i] <= places[m] < |key|;
  }

  predicate HasInstanceKey(o: Object) {
    o.Record? && exists i :: 0 <= i < |o.fields| && IsInstanceKey(o.fields[i].0)
  }

  /** An item of an array or the value of a field refers to `b`. */
  predicate Edge(heap: Heap, a: nat, b: nat) {
    && a in heap
    && match heap[a]
       case Array(items) => Ref(b) in items
       case Record(fields) => exists i :: 0 <= i < |fields| && fields[i].1 == Ref(b)
  }

  lemma {:induction false} EdgeIff(heap: Heap, a: nat, b: nat)
    ensures Edge(heap, a, b) <==> a in heap && Ref(b) in Children(heap[a])
  {
    if a in heap && heap[a].Record? {
      var fields := heap[a].fields;
      assert forall i :: 0 <= i < |fields| ==> Children(heap[a])[i] == fields[i].1;
    }
  }

  /** A walk along references that starts at the value itself. */
  predicate IsPath(heap: Heap, root: Value, path: seq<nat>) {
    path != [] && root == Ref(path[0]) && forall i :: 0 < i < |path| ==> Edge(heap, path[i - 1], path[i])
  }

  ghost predicate Reachable(heap: Heap, root: Value, id: nat) {
    exists path :: IsPath(heap, root, path) && path[|path| - 1] == id
  }

  ghost predicate SuppliesInstanceKey(heap: Heap, root: Value) {
    exists id :: id in heap && Reachable(heap, root, id) && HasInstanceKey(heap[id])
  }

  lemma {:induction false} RootReachable(heap: Heap, root: Value)
    requires root.Ref?
    ensures Reachable(heap, root, root.id)
  {
    assert IsPath(heap, root, [root.id]);
  }

  lemma {:induction false} ChildReachable(heap: Heap, root: Value, a: nat, b: nat)
    requires Reachable(heap, root, a) && Edge(heap, a, b)
    ensures Reachable(heap, root, b)
  {
    var path :| IsPath(heap, root, path) && path[|path| - 1] == a;
    var longer := path + [b];
    forall i | 0 < i < |longer| ensures Edge(heap, longer[i - 1], longer[i]) {
      if i < |path| {
        assert Edge(heap, path[i - 1], path[i]);
      }
    }
    assert IsPath(heap, root, longer);
  }

  /** A set that holds the root and all children of its members holds everything reachable. */
  lemma {:induction false} ClosedSetHoldsReachable(heap: Heap, root: Value, s: set<nat>, path: seq<nat>)
    requires IsPath(heap, root, path) && path[0] in s
    requires forall a, b :: a in s && Edge(heap, a, b) ==> b in s
    ensures path[|path| - 1] in s
    decreases |path|
  {
    if |path| > 1 {
      var n := |path| - 1;
      assert Edge(heap, path[n - 1], path[n]);
      ClosedSetHoldsReachable(heap, root, s, path[..n]);
    }
  }

  /** What the search knows: everything found so far is reachable and holds no key, and what is left to look at is all
      that separates the visited objects from being closed. */
  ghost predicate Searching(heap: Heap, root: Value, pending: seq<Value>, visited: set<nat>) {
    && visited <= heap.Keys
    && (forall v :: v in pending && v.Ref? ==> v.id in heap && Reachable(heap, root, v.id))
    && (forall id :: id in visited ==> !HasInstanceKey(heap[id]))
    && (root.Ref? ==> root.id in visited || root in pending)
    && (forall a, b :: a in visited && Edge(heap, a, b) ==> b in visited || Ref(b) in pending)
  }

  lemma {:induction false} SearchOver(heap: Heap, root: Value, visited: set<nat>)
    requires Searching(heap, root, [], visited)
    ensures !SuppliesInstanceKey(heap, root)
  {
    forall id | id in heap && Reachable(heap, root, id) ensures !HasInstanceKey(heap[id]) {
      var path :| IsPath(heap, root, path) && path[|path| - 1] == id;
      ClosedSetHoldsReachable(heap, root, visited, path);
    }
  }

  /** Popping a value that is no object, or an object already visited. */
  lemma {:induction false} Skipped(heap: Heap, root: Value, pending: seq<Value>, v: Value, visited: set<nat>)
    requires Searching(heap, root, pending + [v], visited) && (v.Ref? ==> v.id in visited)
    ensures Searching(heap, root, pending, visited)
  {
    assert forall u :: u in pending ==> u in pending + [v];
  }

  /** Popping an object without a key: its children take its place. */
  lemma {:induction false} Expanded(heap: Heap, root: Value, pending: seq<Value>, id: nat, visited: set<nat>)
    requires Closed(heap) && Searching(heap, root, pending + [Ref(id)], visited) && id !in visited
    requires id in heap && !HasInstanceKey(heap[id])
    ensures Searching(heap, root, pending + Children(heap[id]), visited + {id})
  {
    var children := Children(heap[id]);
    assert Ref(id) in pending + [Ref(id)];
    forall v | v in pending + children && v.Ref? ensures v.id in heap && Reachable(heap, root, v.id) {
      if v in children {
        var i :| 0 <= i < |children| && children[i] == v;
        assert Resolves(heap, children[i]);
        ChildReachable(heap, root, id, v.id);
      } else {
        assert v in pending + [Ref(id)];
      }
    }
    forall a, b | a in visited + {id} && Edge(heap, a, b) ensures b in visited + {id} || Ref(b) in pending + children {
      EdgeIff(heap, a, b);
      if a != id && b !in visited {
        assert Ref(b) in pending + [Ref(id)];
      }
    }
  }

  lemma {:induction false} Found(heap: Heap, root: Value, pending: seq<Value>, id: nat, visited: set<nat>)
    requires Searching(heap, root, pending, visited) && Ref(id) in pending && id in heap && HasInstanceKey(heap[id])
    ensures SuppliesInstanceKey(heap, root)
  {
  }

  lemma {:induction false} InHeap(heap: Heap, root: Value, pending: seq<Value>, id: nat, visited: set<nat>)
    requires Searching(heap, root, pending, visited) && Ref(id) in pending
    ensures id in heap
  {
  }

  /** Push a record's values, stopping at an instance key. */
  method PushFields(o: Object, pending: seq<Value>) returns (hit: bool, pushed: seq<Value>)
    requires o.Record?
    ensures hit <==> HasInstanceKey(o)
    ensures !hit ==> pushed == pending + Children(o)
  {
    hide IsInstanceKey;
    pushed := pending;
    for i := 0 to |o.fields|
      invariant pushed == pending + Children(o)[..i]
      invariant forall j :: 0 <= j < i ==> !IsInstanceKey(o.fields[j].0)
    {
      if IsInstanceKey(o.fields[i].0) {
        return true, pushed;
      }
      pushed := pushed + [o.fields[i].1];
      assert Children(o)[..i + 1] == Children(o)[..i] + [o.fields[i].1];
    }
    assert Children(o)[..|o.fields|] == Children(o);
    hit := false;
  }

  /** The worklist search ends on every heap, cyclic or not, and answers whether a reachable object, arrays aside, has a
      key that normalises to the instance key. */
  method CallerSuppliedAgentInstanceId(heap: Heap, value: Value) returns (found: bool)
    requires Closed(heap) && Resolves(heap, value)
    ensures found <==> SuppliesInstanceKey(heap, value)
  {
    var pending, visited := [value], {};
    if value.Ref? {
      RootReachable(heap, value);
    }
    assert Searching(heap, value, pending, visited);
    while pending != []
      invariant Searching(heap, value, pending, visited)
      decreases heap.Keys - visited, |pending|
    {
      hide Searching, HasInstanceKey, Closed, SuppliesInstanceKey;
      ghost var before := pending;
      var candidate := pending[|pending| - 1];
      pending := pending[..|pending| - 1];
      assert before == pending + [candidate];
      if candidate.Primitive? || candidate.id in visited {
        Skipped(heap, value, pending, candidate, visited);
        continue;
      }
      InHeap(heap, value, before, candidate.id, visited);
      var o := heap[candidate.id];
      if o.Array? {
        ArraysHaveNoKeys(o);
        Expanded(heap, value, pending, candidate.id, visited);
        pending := pending + o.items;
      } else {
        var hit, pushed := PushFields(o, pending);
        if hit {
          Found(heap, value, before, candidate.id, visited);
          return true;
        }
        Expanded(heap, value, pending, candidate.id, visited);
        pending := pushed;
      }
      visited := visited + {candidate.id};
    }
    SearchOver(heap, value, visited);
    found := false;
  }

  lemma {:induction false} ArraysHaveNoKeys(o: Object)
    requires o.Array?
    ensures !HasInstanceKey(o) && Children(o) == o.items
  {
  }
}
