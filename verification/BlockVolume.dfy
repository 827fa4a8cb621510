/** The block volume of a machine: the paged search, and the create and delete calls built on it. */
module BlockVolume {
  import opened Optional
  import opened CloudCall

  /** `owned` is the ownership test on the volume's tags. */
  datatype Volume = Volume(id: nat, compartment: string, name: string, owned: bool)

  datatype Key = Key(compartment: string, name: string)

  datatype Result<+T> = Success(value: T) | Failure

  /** What the listing returns for one search, page by page; the page at `failsAt` is an error instead. */
  datatype Listing = Listing(pages: seq<seq<Volume>>, failsAt: Option<nat>)

  function Concat(pages: seq<seq<Volume>>): seq<Volume> {
    if pages == [] then [] else Concat(pages[..|pages| - 1]) + pages[|pages| - 1]
  }

  function Filter(p: Volume -> bool, vs: seq<Volume>): seq<Volume> {
    if vs == [] then []
    else
      var v, rest := vs[|vs| - 1], Filter(p, vs[..|vs| - 1]);
      if p(v) then rest + [v] else rest
  }

  function Matches(key: Key): Volume -> bool {
    (v: Volume) => v.compartment == key.compartment && v.name == key.name
  }

  predicate IsOwned(v: Volume) {
    v.owned
  }

  function Other(id: nat): Volume -> bool {
    (v: Volume) => v.id != id
  }

  function Listed(store: seq<Volume>, key: Key): seq<Volume> {
    Filter(Matches(key), store)
  }

  function Owned(vs: seq<Volume>): seq<Volume> {
    Filter(IsOwned, vs)
  }

  /** The machine's own volumes: owned, in its compartment, under its volume name. */
  function Mine(store: seq<Volume>, key: Key): seq<Volume> {
    Owned(Listed(store, key))
  }

  /** The pages a search gets to see before the listing fails. */
  function Readable(l: Listing): seq<seq<Volume>> {
    if l.failsAt.Some? && l.failsAt.value < |l.pages| then l.pages[..l.failsAt.value] else l.pages
  }

  /** The search without pages: the first owned volume of everything readable. */
  function Search(l: Listing): Result<Option<Volume>> {
    var hits := Owned(Concat(Readable(l)));
    if hits != [] then Success(Some(hits[0]))
    else if Readable(l) == l.pages then Success(None)
    else Failure
  }

  lemma {:induction false} FilterConcat(p: Volume -> bool, a: seq<Volume>, b: seq<Volume>)
    ensures Filter(p, a + b) == Filter(p, a) + Filter(p, b)
  {
    if b == [] {
      assert a + b == a;
    } else {
      assert (a + b)[..|a + b| - 1] == a + b[..|b| - 1];
      FilterConcat(p, a, b[..|b| - 1]);
    }
  }

  lemma FilterOne(p: Volume -> bool, v: Volume)
    ensures Filter(p, [v]) == if p(v) then [v] else []
  {
    assert [v][..0] == [];
  }

  lemma OwnedConcat(a: seq<Volume>, b: seq<Volume>)
    ensures Owned(a + b) == Owned(a) + Owned(b)
  {
    FilterConcat(IsOwned, a, b);
  }

  lemma {:induction false} ConcatPrefix(pages: seq<seq<Volume>>, i: nat)
    requires i <= |pages|
    ensures exists tail :: Concat(pages) == Concat(pages[..i]) + tail
  {
    if i == |pages| {
      assert pages[..i] == pages;
      assert Concat(pages) == Concat(pages[..i]) + [];
    } else {
      var most := pages[..|pages| - 1];
      ConcatPrefix(most, i);
      assert most[..i] == pages[..i];
      var tail :| Concat(most) == Concat(pages[..i]) + tail;
      assert Concat(pages) == Concat(pages[..i]) + (tail + pages[|pages| - 1]);
    }
  }

  /** A hit inside the first pages is the first hit of all readable ones. */
  lemma FirstHit(l: Listing, i: nat, j: nat)
    requires i < |Readable(l)| && j < |l.pages[i]| && l.pages[i][j].owned
    requires Owned(Concat(l.pages[..i])) == [] && Owned(l.pages[i][..j]) == []
    ensures Search(l) == Success(Some(l.pages[i][j]))
  {
    var r, page := Readable(l), l.pages[i];
    assert r[..i + 1][..i] == l.pages[..i];
    ConcatPrefix(r, i + 1);
    var tail :| Concat(r) == Concat(r[..i + 1]) + tail;
    OwnedConcat(Concat(r[..i + 1]), tail);
    OwnedConcat(Concat(l.pages[..i]), page);
    assert page == page[..j + 1] + page[j + 1..];
    OwnedConcat(page[..j + 1], page[j + 1..]);
    assert page[..j + 1][..j] == page[..j];
  }

  class VolumeScope {
    const key: Key
    const hasClient: bool
    var store: seq<Volume>

    constructor (key: Key, hasClient: bool, store: seq<Volume>)
      ensures this.key == key && this.hasClient == hasClient && this.store == store
    {
      this.key, this.hasClient, this.store := key, hasClient, store;
    }

    /** Walks the pages until a hit, an error or the last page.  The first page always exists. */
    method GetBlockVolume(l: Listing) returns (r: Result<Option<Volume>>)
      requires l.pages != []
      ensures r == Search(l)
    {
      var page := 0;
      while true
        invariant page < |l.pages| && page <= |Readable(l)|
        invariant Owned(Concat(l.pages[..page])) == []
        decreases |l.pages| - page
      {
        if l.failsAt == Some(page) {
          assert Readable(l) == l.pages[..page];
          return Failure;
        }
        var items := l.pages[page];
        for j := 0 to |items|
          invariant Owned(items[..j]) == []
        {
          if items[j].owned {
            FirstHit(l, page, j);
            return Success(Some(items[j]));
          }
          assert items[..j + 1][..j] == items[..j];
        }
        assert items[..|items|] == items;
        assert l.pages[..page + 1][..page] == l.pages[..page];
        OwnedConcat(Concat(l.pages[..page]), items);
        if page + 1 == |l.pages| {
          assert l.pages[..page + 1] == l.pages;
          return Success(None);
        }
        page := page + 1;
      }
    }

    method CreateBlockVolume(answer: CallAnswer) returns (ok: bool)
      modifies this
      ensures (store, ok) == Create(key, old(store), answer)
    {
      if Happens(answer.call) {
        store := store + [Volume(answer.id, key.compartment, key.name, true)];
      }
      return answer.call.Done?;
    }

    method ReconcileBlockVolume(l: Listing, answer: CallAnswer) returns (ok: bool)
      requires l.pages != []
      modifies this
      ensures (store, ok) == Reconcile(key, old(store), l, answer)
    {
      var vol := GetBlockVolume(l);
      if vol.Failure? {
        return false;
      }
      if vol.value.None? {
        ok := CreateBlockVolume(answer);
      } else {
        ok := true;
      }
    }

    method DeleteBlockVolume(l: Listing, answer: CallAnswer) returns (ok: bool)
      requires l.pages != []
      modifies this
      ensures (store, ok) == Delete(key, hasClient, old(store), l, answer)
    {
      if !hasClient {
        return true;
      }
      var vol := GetBlockVolume(l);
      if vol.Failure? {
        return false;
      }
      if vol.value.None? {
        return true;
      }
      if Happens(answer.call) {
        store := Without(store, vol.value.value.id);
      }
      return answer.call.Done?;
    }
  }

  /** The cloud's answer to a create or delete call; `id` is the identifier of a created volume. */
  datatype CallAnswer = CallAnswer(id: nat, call: Call)

  function Create(key: Key, store: seq<Volume>, answer: CallAnswer): (seq<Volume>, bool) {
    if Happens(answer.call)
    then (store + [Volume(answer.id, key.compartment, key.name, true)], answer.call.Done?)
    else (store, false)
  }

  function Reconcile(key: Key, store: seq<Volume>, l: Listing, answer: CallAnswer): (seq<Volume>, bool) {
    match Search(l)
    case Failure => (store, false)
    case Success(None) => Create(key, store, answer)
    case Success(Some(_)) => (store, true)
  }

  function Without(store: seq<Volume>, id: nat): seq<Volume> {
    Filter(Other(id), store)
  }

  function Delete(key: Key, hasClient: bool, store: seq<Volume>, l: Listing, answer: CallAnswer): (seq<Volume>, bool) {
    if !hasClient then (store, true)
    else match Search(l)
      case Failure => (store, false)
      case Success(None) => (store, true)
      case Success(Some(v)) =>
        if Happens(answer.call) then (Without(store, v.id), answer.call.Done?) else (store, false)
  }

  // ---- Runs ------------------------------------------------------------------------------------

  /** `Others` is anything that happens to volumes that are not the machine's. */
  datatype Action =
    | ReconcileCall(l: Listing, answer: CallAnswer)
    | DeleteCall(l: Listing, answer: CallAnswer)
    | Others(after: seq<Volume>)

  predicate DistinctIds(store: seq<Volume>) {
    forall i, j :: 0 <= i < j < |store| ==> store[i].id != store[j].id
  }

  /** The listing shows what the store holds, and a created volume gets an identifier of its own. */
  predicate Consistent(store: seq<Volume>, key: Key, a: Action) {
    match a
    case ReconcileCall(l, answer) =>
      Concat(l.pages) == Listed(store, key) && forall v :: v in store ==> v.id != answer.id
    case DeleteCall(l, _) => Concat(l.pages) == Listed(store, key)
    case Others(after) => DistinctIds(after) && Mine(after, key) == Mine(store, key)
  }

  function Step(key: Key, hasClient: bool, store: seq<Volume>, a: Action): (seq<Volume>, bool) {
    match a
    case ReconcileCall(l, answer) => Reconcile(key, store, l, answer)
    case DeleteCall(l, answer) => Delete(key, hasClient, store, l, answer)
    case Others(after) => (after, true)
  }

  ghost predicate ConsistentRun(key: Key, hasClient: bool, store: seq<Volume>, run: seq<Action>)
    decreases |run|
  {
    run == [] ||
    (Consistent(store, key, run[0]) && ConsistentRun(key, hasClient, Step(key, hasClient, store, run[0]).0, run[1..]))
  }

  function Exec(key: Key, hasClient: bool, store: seq<Volume>, run: seq<Action>): seq<Volume>
    decreases |run|
  {
    if run == [] then store else Exec(key, hasClient, Step(key, hasClient, store, run[0]).0, run[1..])
  }

  predicate AtMostOne(store: seq<Volume>, key: Key) {
    DistinctIds(store) && |Mine(store, key)| <= 1
  }

  lemma {:induction false} FilterMembers(p: Volume -> bool, vs: seq<Volume>, v: Volume)
    ensures v in Filter(p, vs) <==> v in vs && p(v)
  {
    if vs != [] {
      FilterMembers(p, vs[..|vs| - 1], v);
      assert vs == vs[..|vs| - 1] + [vs[|vs| - 1]];
    }
  }

  /** The order of two filters does not matter. */
  lemma {:induction false} FiltersCommute(p: Volume -> bool, q: Volume -> bool, vs: seq<Volume>)
    ensures Filter(p, Filter(q, vs)) == Filter(q, Filter(p, vs))
  {
    if vs != [] {
      var most, last := vs[..|vs| - 1], vs[|vs| - 1];
      FiltersCommute(p, q, most);
      FilterSnoc(p, q, most, last);
      FilterSnoc(q, p, most, last);
      assert vs == most + [last];
    }
  }

  lemma FilterSnoc(p: Volume -> bool, q: Volume -> bool, vs: seq<Volume>, v: Volume)
    ensures Filter(p, Filter(q, vs + [v])) == Filter(p, Filter(q, vs)) + if p(v) && q(v) then [v] else []
  {
    FilterConcat(q, vs, [v]);
    FilterOne(q, v);
    FilterConcat(p, Filter(q, vs), Filter(q, [v]));
    FilterOne(p, v);
  }

  lemma MineMembers(store: seq<Volume>, key: Key, v: Volume)
    ensures v in Mine(store, key) <==> v in store && v.owned && v.compartment == key.compartment && v.name == key.name
  {
    FilterMembers(Matches(key), store, v);
    FilterMembers(IsOwned, Listed(store, key), v);
  }

  lemma MineSnoc(store: seq<Volume>, key: Key, v: Volume)
    requires v.owned && v.compartment == key.compartment && v.name == key.name
    ensures Mine(store + [v], key) == Mine(store, key) + [v]
  {
    FilterSnoc(IsOwned, Matches(key), store, v);
  }

  lemma {:induction false} FilterDistinct(p: Volume -> bool, vs: seq<Volume>)
    requires DistinctIds(vs)
    ensures DistinctIds(Filter(p, vs))
  {
    if vs != [] {
      var most, last := vs[..|vs| - 1], vs[|vs| - 1];
      FilterDistinct(p, most);
      forall v | v in Filter(p, most) ensures v.id != last.id {
        FilterMembers(p, most, v);
      }
    }
  }

  lemma WithoutMine(store: seq<Volume>, key: Key, id: nat)
    ensures Mine(Without(store, id), key) == Without(Mine(store, key), id)
  {
    FiltersCommute(Matches(key), Other(id), store);
    FiltersCommute(IsOwned, Other(id), Listed(store, key));
  }

  /** Deleting the only volume of the machine's own leaves none. */
  lemma WithoutOnly(store: seq<Volume>, key: Key)
    requires |Mine(store, key)| == 1
    ensures Mine(Without(store, Mine(store, key)[0].id), key) == []
  {
    var v := Mine(store, key)[0];
    WithoutMine(store, key, v.id);
    FilterOne(Other(v.id), v);
    assert Mine(store, key) == [v];
  }

  /** A consistent search finds one of the machine's volumes, or says that there is none. */
  lemma SearchSound(store: seq<Volume>, key: Key, l: Listing)
    requires Concat(l.pages) == Listed(store, key)
    ensures Search(l) == Success(None) ==> Mine(store, key) == []
    ensures Search(l).Success? && Search(l).value.Some? ==>
              Search(l).value.value in Mine(store, key) && Search(l).value.value == Mine(store, key)[0]
  {
    if l.failsAt.Some? && l.failsAt.value < |l.pages| {
      ConcatPrefix(l.pages, l.failsAt.value);
      var tail :| Concat(l.pages) == Concat(Readable(l)) + tail;
      OwnedConcat(Concat(Readable(l)), tail);
    }
  }

  lemma ReconcileKeeps(key: Key, store: seq<Volume>, l: Listing, answer: CallAnswer)
    requires AtMostOne(store, key) && Consistent(store, key, ReconcileCall(l, answer))
    ensures AtMostOne(Reconcile(key, store, l, answer).0, key)
    ensures Reconcile(key, store, l, answer).1 ==> |Mine(Reconcile(key, store, l, answer).0, key)| == 1
  {
    SearchSound(store, key, l);
    if Search(l) == Success(None) {
      MineSnoc(store, key, Volume(answer.id, key.compartment, key.name, true));
    }
  }

  lemma DeleteKeeps(key: Key, hasClient: bool, store: seq<Volume>, l: Listing, answer: CallAnswer)
    requires AtMostOne(store, key) && Consistent(store, key, DeleteCall(l, answer))
    ensures AtMostOne(Delete(key, hasClient, store, l, answer).0, key)
    ensures Delete(key, hasClient, store, l, answer).1 && hasClient ==>
      Mine(Delete(key, hasClient, store, l, answer).0, key) == []
  {
    SearchSound(store, key, l);
    if hasClient && Search(l).Success? && Search(l).value.Some? {
      FilterDistinct(Other(Search(l).value.value.id), store);
      WithoutOnly(store, key);
    }
  }

  lemma StepKeeps(key: Key, hasClient: bool, store: seq<Volume>, a: Action)
    requires AtMostOne(store, key) && Consistent(store, key, a)
    ensures AtMostOne(Step(key, hasClient, store, a).0, key)
  {
    match a
    case ReconcileCall(l, answer) => ReconcileKeeps(key, store, l, answer);
    case DeleteCall(l, answer) => DeleteKeeps(key, hasClient, store, l, answer);
    case Others(_) =>
  }

  /** Over every sequence of reconcile and delete calls, with calls failing before or after their effect
      and other tenants moving, the machine never has a second volume of its own. */
  lemma {:induction false} NeverTwo(key: Key, hasClient: bool, store: seq<Volume>, run: seq<Action>)
    requires AtMostOne(store, key) && ConsistentRun(key, hasClient, store, run)
    ensures AtMostOne(Exec(key, hasClient, store, run), key)
    decreases |run|
  {
    if run != [] {
      StepKeeps(key, hasClient, store, run[0]);
      NeverTwo(key, hasClient, Step(key, hasClient, store, run[0]).0, run[1..]);
    }
  }

  /** The calls only ever remove a volume of the machine's own. */
  lemma ForeignVolumesSurvive(key: Key, hasClient: bool, store: seq<Volume>, a: Action, v: Volume)
    requires DistinctIds(store) && Consistent(store, key, a) && !a.Others?
    requires v in store && v !in Mine(store, key)
    ensures v in Step(key, hasClient, store, a).0
  {
    if a.DeleteCall? && hasClient && Search(a.l).Success? && Search(a.l).value.Some? {
      SearchSound(store, key, a.l);
      var hit := Search(a.l).value.value;
      MineMembers(store, key, hit);
      FilterMembers(Other(hit.id), store, v);
      var i :| 0 <= i < |store| && store[i] == v;
      var j :| 0 <= j < |store| && store[j] == hit;
      assert i != j;
    }
  }

  /** A successful reconcile leaves exactly one volume; a successful delete with a client leaves none. */
  lemma SuccessMeans(key: Key, hasClient: bool, store: seq<Volume>, a: Action)
    requires AtMostOne(store, key) && Consistent(store, key, a) && Step(key, hasClient, store, a).1
    ensures a.ReconcileCall? ==> |Mine(Step(key, hasClient, store, a).0, key)| == 1
    ensures a.DeleteCall? && hasClient ==> Mine(Step(key, hasClient, store, a).0, key) == []
  {
    match a
    case ReconcileCall(l, answer) => ReconcileKeeps(key, store, l, answer);
    case DeleteCall(l, answer) => DeleteKeeps(key, hasClient, store, l, answer);
    case Others(_) =>
  }

  // ---- When the calls succeed ----------------------------------------------------------------------

  /** Some page of the listing fails. */
  predicate PageFails(l: Listing) {
    l.failsAt.Some? && l.failsAt.value < |l.pages|
  }

  /** A search fails exactly when a page fails and no page before it has a volume of the machine's own. */
  lemma SearchFailsIff(l: Listing)
    ensures Search(l).Failure? <==>
      PageFails(l) && forall v :: v in Concat(l.pages[..l.failsAt.value]) ==> !v.owned
  {
    forall v ensures v in Owned(Concat(Readable(l))) <==> v in Concat(Readable(l)) && v.owned {
      FilterMembers(IsOwned, Concat(Readable(l)), v);
    }
    if Owned(Concat(Readable(l))) != [] {
      assert Owned(Concat(Readable(l)))[0] in Owned(Concat(Readable(l)));
    }
    if PageFails(l) {
      assert |Readable(l)| < |l.pages|;
    }
  }

  /** On a consistent listing without a failing page, the search answers the first volume of the machine's own, or
      none if there is none. */
  lemma SearchAnswers(store: seq<Volume>, key: Key, l: Listing)
    requires Concat(l.pages) == Listed(store, key) && !PageFails(l)
    ensures Search(l) == Success(if Mine(store, key) == [] then None else Some(Mine(store, key)[0]))
  {
  }

  /** A reconcile whose listing and call succeed is successful and leaves one volume, the old one if there was one;
      so is a delete, and it leaves none. */
  lemma CallsSucceed(key: Key, hasClient: bool, store: seq<Volume>, a: Action)
    requires AtMostOne(store, key) && Consistent(store, key, a) && !a.Others?
    requires !PageFails(a.l) && a.answer.call.Done?
    ensures var (after, ok) := Step(key, hasClient, store, a);
      && ok
      && (a.ReconcileCall? ==> |Mine(after, key)| == 1 && (Mine(store, key) != [] ==> after == store))
      && (a.DeleteCall? && hasClient ==> Mine(after, key) == [])
      && (a.DeleteCall? && (!hasClient || Mine(store, key) == []) ==> after == store)
  {
    SearchAnswers(store, key, a.l);
    SuccessMeans(key, hasClient, store, a);
  }
}
