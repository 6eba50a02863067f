/**
 * The mirror of core/providers/deployment/ubermax/mothership/mirror/mirror_cache.go:
 * a subscription's events are applied one by one to a private IndexedCache and
 * the applied ones are forwarded, in arrival order, to the consumer. The
 * subscription stream is a finite sequence of events; the channel is the
 * sequence of forwarded events.
 */
module Mirror {
  import opened Wrappers
  import opened IndexedCaching
  import SyncMap

  datatype MirrorCacheConfig = MirrorCacheConfig(collectionName: string, fields: Option<seq<string>>, debug: bool)

  /** newMirrorCache: a nil field list subscribes to "id" only; any other list, even an empty one, is kept. */
  function SubscriptionFields(fields: Option<seq<string>>): (r: seq<string>)
    ensures fields.None? ==> r == ["id"]
    ensures fields.Some? ==> r == fields.value
  {
    if fields.None? then ["id"] else fields.value
  }

  /** A value of an event's untyped field map: only text survives the `id.(string)` assertion. */
  datatype FieldValue = Text(text: string) | NonText

  /** A subscription event; `fields` is None when the event carries a nil field map. */
  datatype Event<T> = Event(action: string, record: T, fields: Option<map<string, FieldValue>>)

  /** A delete event whose field map holds a text id: the one delete the loop applies. */
  predicate HasTextId<T>(e: Event<T>) {
    e.fields.Some? && "id" in e.fields.value && e.fields.value["id"].Text?
  }

  /**
   * What the event loop does with one event. Crash is a panic inside the
   * loop's goroutine, which nothing recovers, so it ends the whole process;
   * no later event is read.
   */
  datatype Disposition = Forward | Drop | Crash

  /**
   * create and update events are applied and forwarded; a delete event is
   * applied and forwarded when its fields carry a text id, dropped when they
   * carry no id, and panics, which ends the process, when the field map is nil
   * (dereferenced) or the id is not text (failed type assertion); any other
   * action is dropped.
   */
  function DispositionOf<T>(e: Event<T>): (d: Disposition)
    ensures d == Forward <==> e.action in {"create", "update"} || (e.action == "delete" && HasTextId(e))
    ensures d == Crash <==> e.action == "delete" && (e.fields.None? || ("id" in e.fields.value && e.fields.value["id"].NonText?))
  {
    match e.action
    case "create" => Forward
    case "update" => Forward
    case "delete" =>
      if e.fields.None? then Crash
      else if "id" !in e.fields.value then Drop
      else if e.fields.value["id"].Text? then Forward
      else Crash
    case _ => Drop
  }

  /** The registries after the loop body ran on `e`. */
  function AppliedTo<T>(R: Registries<T>, fm: T -> FieldMap, e: Event<T>): (r: Registries<T>)
    ensures DispositionOf(e) != Forward ==> r == R
  {
    if e.action in {"create", "update"} then Upserted(R, fm, e.record)
    else if e.action == "delete" && HasTextId(e) then DeletedAt(R, fm, "id", e.fields.value["id"].text)
    else R
  }

  /** The registries after the events `s`, in order. */
  function AppliedAll<T>(R: Registries<T>, fm: T -> FieldMap, s: seq<Event<T>>): (r: Registries<T>)
    ensures ForwardedOf(s) == [] ==> r == R
    decreases |s|
  {
    if s == [] then R else AppliedTo(AppliedAll(R, fm, s[..|s| - 1]), fm, s[|s| - 1])
  }

  /** The events of `s` sent on the channel, in order. */
  function ForwardedOf<T>(s: seq<Event<T>>): seq<Event<T>>
    decreases |s|
  {
    if s == [] then []
    else ForwardedOf(s[..|s| - 1]) + (if DispositionOf(s[|s| - 1]) == Forward then [s[|s| - 1]] else [])
  }

  /** Exactly the forwarded events of `s` are sent, each once, in their order in `s`. */
  lemma {:induction false} ForwardedOfAppend<T>(s: seq<Event<T>>, t: seq<Event<T>>)
    ensures ForwardedOf(s + t) == ForwardedOf(s) + ForwardedOf(t)
    decreases |t|
  {
    if t == [] {
      assert s + t == s;
    } else {
      var t' := t[..|t| - 1];
      assert (s + t)[..|s + t| - 1] == s + t';
      ForwardedOfAppend(s, t');
    }
  }

  lemma {:induction false} ForwardedOfSingle<T>(e: Event<T>)
    ensures ForwardedOf([e]) == if DispositionOf(e) == Forward then [e] else []
  {
    assert [e][..0] == [];
  }

  /** Every event sent is one the loop forwards, and every such event is sent. */
  lemma {:induction false} ForwardedOfMembers<T>(s: seq<Event<T>>, e: Event<T>)
    ensures e in ForwardedOf(s) <==> e in s && DispositionOf(e) == Forward
    decreases |s|
  {
    if s != [] {
      var s' := s[..|s| - 1];
      assert s == s' + [s[|s| - 1]];
      ForwardedOfMembers(s', e);
    }
  }

  /** Applying any stream of events keeps the cache's all-or-none invariant. */
  lemma {:induction false} AppliedAllCoherent<T>(R: Registries<T>, fm: T -> FieldMap, s: seq<Event<T>>)
    requires Coherent(R, fm)
    ensures Coherent(AppliedAll(R, fm, s), fm)
    decreases |s|
  {
    if s != [] {
      var e := s[|s| - 1];
      var P := AppliedAll(R, fm, s[..|s| - 1]);
      AppliedAllCoherent(R, fm, s[..|s| - 1]);
      if e.action in {"create", "update"} {
        UpsertedCoherent(P, fm, e.record);
      } else if e.action == "delete" && HasTextId(e) {
        DeletedAtCoherent(P, fm, "id", e.fields.value["id"].text);
      }
    }
  }

  /** The index of the first crashing event of `s`, or |s| when none crashes. */
  function FirstCrash<T>(s: seq<Event<T>>): (n: nat)
    ensures n <= |s|
    ensures forall i :: 0 <= i < n ==> DispositionOf(s[i]) != Crash
    ensures n < |s| ==> DispositionOf(s[n]) == Crash
    decreases |s|
  {
    if s == [] then 0
    else if DispositionOf(s[0]) == Crash then 0
    else 1 + FirstCrash(s[1..])
  }

  class MirrorCache<T> {
    const collectionName: string
    /** The fields the subscription asks for. */
    const fields: seq<string>
    const debug: bool
    /** The private cache the events are applied to. */
    const cache: IndexedCache<T>

    ghost predicate Valid()
      reads this, cache
    {
      cache.Valid()
    }

    /** newMirrorCache: field defaulting and an empty cache sharing the debug flag. */
    constructor (config: MirrorCacheConfig, fieldMap: T -> FieldMap, zero: T)
      ensures Valid() && fresh(cache)
      ensures collectionName == config.collectionName && debug == config.debug
      ensures fields == SubscriptionFields(config.fields)
      ensures cache.registries == map[] && cache.fieldMap == fieldMap && cache.zero == zero && cache.debug == config.debug
    {
      collectionName := config.collectionName;
      fields := SubscriptionFields(config.fields);
      debug := config.debug;
      cache := new IndexedCache(fieldMap, zero, config.debug);
    }

    /** One pass of the event loop of StartMirroring. */
    method HandleEvent(e: Event<T>) returns (d: Disposition)
      requires Valid()
      modifies cache
      ensures Valid()
      ensures d == DispositionOf(e)
      ensures cache.registries == AppliedTo(old(cache.registries), cache.fieldMap, e)
    {
      d := DispositionOf(e);
      if e.action == "create" || e.action == "update" {
        cache.Upsert(e.record);
      } else if e.action == "delete" && e.fields.Some? && "id" in e.fields.value {
        var id := e.fields.value["id"];
        if id.Text? {
          cache.DeleteByFieldNameAndValue("id", id.text);
        }
      }
    }

    /**
     * StartMirroring's loop over a finite stream: each event is applied, then
     * forwarded if it is applied, until the stream ends or an event panics,
     * which ends the process. `consumed` counts the events taken from the stream.
     */
    method Mirror(stream: seq<Event<T>>) returns (sent: seq<Event<T>>, consumed: nat, crashed: bool)
      requires Valid()
      modifies cache
      ensures Valid()
      ensures crashed <==> FirstCrash(stream) < |stream|
      ensures consumed == if crashed then FirstCrash(stream) + 1 else |stream|
      ensures cache.registries == AppliedAll(old(cache.registries), cache.fieldMap, stream[..consumed])
      ensures sent == ForwardedOf(stream[..consumed])
    {
      ghost var R0 := cache.registries;
      sent, consumed, crashed := [], 0, false;
      while consumed < |stream| && !crashed
        invariant Valid()
        invariant consumed <= |stream|
        invariant !crashed ==> consumed <= FirstCrash(stream)
        invariant crashed ==> consumed == FirstCrash(stream) + 1
        invariant cache.registries == AppliedAll(R0, cache.fieldMap, stream[..consumed])
        invariant sent == ForwardedOf(stream[..consumed])
        decreases |stream| - consumed, !crashed
      {
        var e := stream[consumed];
        var d := HandleEvent(e);
        assert stream[..consumed + 1][..consumed] == stream[..consumed];
        consumed := consumed + 1;
        if d == Forward {
          sent := sent + [e];
        } else if d == Crash {
          crashed := true;
        }
      }
    }

    /** Range: the cache's Range. */
    method Range(fn: T -> bool) returns (visited: seq<T>, ghost ids: seq<string>)
      requires Valid()
      modifies cache
      ensures Valid()
      ensures cache.registries == WithRegistry(old(cache.registries), "id")
      ensures SyncMap.Distinct(ids) && |visited| == |ids|
      ensures forall i :: 0 <= i < |ids| ==> Lookup(cache.registries, "id", ids[i]) == Some(visited[i])
      ensures forall i :: 0 <= i < |ids| - 1 ==> fn(visited[i])
      ensures (forall k :: k in cache.registries["id"] ==> k in ids) || (|ids| > 0 && !fn(visited[|ids| - 1]))
    {
      visited, ids := cache.Range(fn);
    }
  }
}
