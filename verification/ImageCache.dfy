// The app's bounded image cache (APIManager.DownLoader.swift): a queue of keys that may
// hold duplicates beside a dictionary in the user defaults, which are reset independently.
module ImageCache {
  import opened Options

  type Data = seq<bv8>

  const CAPACITY := 60

  /** `store` is the dictionary in the user defaults, if it is there. */
  datatype Cache = Cache(keys: seq<string>, store: Option<map<string, Data>>)

  datatype Event = Save(url: string, data: Data) | Clear | Reset

  function Apply(c: Cache, e: Event): Cache {
    match e
    case Clear => c.(store := None)
    case Reset => c.(store := Some(map[]))
    case Save(url, data) =>
      if c.store.None? then c
      else
        var keys, images := c.keys + [url], c.store.value[url := data];
        if |keys| > CAPACITY then Cache(keys[1..], Some(images - {keys[0]})) else Cache(keys, Some(images))
  }

  function Run(c: Cache, events: seq<Event>): Cache {
    if events == [] then c else Apply(Run(c, events[..|events| - 1]), events[|events| - 1])
  }

  class Downloader {
    var dataImageKeys: seq<string>
    var dataImages: Option<map<string, Data>>

    function State(): Cache
      reads this
    {
      Cache(dataImageKeys, dataImages)
    }

    constructor (present: bool)
      ensures State() == Start(present)
    {
      dataImageKeys := [];
      dataImages := if present then Some(map[]) else None;
    }

    /** `configSaveImage`: without a dictionary nothing happens; otherwise the key is queued,
        the image stored, and the oldest key evicted if there are too many. */
    method SaveImage(url: string, data: Data)
      modifies this
      ensures State() == Apply(old(State()), Save(url, data))
      ensures old(dataImages).Some? && |old(dataImageKeys)| < 60 ==>
        dataImageKeys == old(dataImageKeys) + [url] && dataImages == Some(old(dataImages).value[url := data])
      ensures old(dataImages).Some? && |old(dataImageKeys)| == 60 ==>
        && dataImageKeys == old(dataImageKeys)[1..] + [url]
        && dataImages == Some(old(dataImages).value[url := data] - {old(dataImageKeys)[0]})
    {
      if dataImages.None? {
        return;
      }
      var images := dataImages.value;
      dataImageKeys := dataImageKeys + [url];
      images := images[url := data];
      if |dataImageKeys| > CAPACITY {
        images := images - {dataImageKeys[0]};
        dataImageKeys := dataImageKeys[1..];
      }
      dataImages := Some(images);
    }

    /** `clearImageData`. */
    method ClearImageData()
      modifies this
      ensures State() == Apply(old(State()), Clear)
    {
      dataImages := None;
    }

    /** `configImageDataStorage`. */
    method ConfigStorage()
      modifies this
      ensures State() == Apply(old(State()), Reset)
    {
      dataImages := Some(map[]);
    }
  }

  /** Launch: an empty queue, and an empty dictionary or none. */
  function Start(present: bool): Cache {
    Cache([], if present then Some(map[]) else None)
  }

  // ----- the meaning of a run

  /** Whether the dictionary is there after the events. */
  predicate Present(present: bool, events: seq<Event>) {
    if events == [] then present
    else match events[|events| - 1]
      case Save(_, _) => Present(present, events[..|events| - 1])
      case Clear => false
      case Reset => true
  }

  datatype Saved = Saved(url: string, data: Data)

  /** The saves that took effect, in order. */
  function Saves(present: bool, events: seq<Event>): seq<Saved> {
    if events == [] then []
    else
      var before, last := events[..|events| - 1], events[|events| - 1];
      Saves(present, before) + (if last.Save? && Present(present, before) then [Saved(last.url, last.data)] else [])
  }

  /** How many of them precede the last clear or reset. */
  function Wiped(present: bool, events: seq<Event>): nat {
    if events == [] then 0
    else
      var before, last := events[..|events| - 1], events[|events| - 1];
      if last.Save? then Wiped(present, before) else |Saves(present, before)|
  }

  /** The latest save of a URL. */
  function LatestSave(saves: seq<Saved>, url: string): (j: Option<nat>)
    ensures j.Some? ==> j.value < |saves| && saves[j.value].url == url && forall k :: j.value < k < |saves| ==> saves[k].url != url
    ensures j.None? ==> forall k :: 0 <= k < |saves| ==> saves[k].url != url
  {
    if saves == [] then None
    else if saves[|saves| - 1].url == url then Some(|saves| - 1)
    else LatestSave(saves[..|saves| - 1], url)
  }

  /** A URL is stored iff its latest save came after the last clear or reset, and no copy of
      it was evicted by that save or a later one. Save number `k + 60` evicts the key of save
      number `k`. */
  predicate Stored(saves: seq<Saved>, wiped: nat, url: string) {
    && LatestSave(saves, url).Some?
    && wiped <= LatestSave(saves, url).value
    && forall k :: 0 <= k && LatestSave(saves, url).value <= k + 60 < |saves| ==> saves[k].url != url
  }

  /** The queue is the last sixty keys saved. */
  ghost predicate QueueDescribed(saves: seq<Saved>, keys: seq<string>) {
    && |keys| == (if |saves| > 60 then 60 else |saves|)
    && forall i :: 0 <= i < |keys| ==> keys[i] == saves[|saves| - |keys| + i].url
  }

  /** The dictionary holds the stored URLs, each with the data of its latest save. */
  ghost predicate StoreDescribed(saves: seq<Saved>, wiped: nat, images: map<string, Data>) {
    && (forall url :: url in images <==> Stored(saves, wiped, url))
    && (forall url :: url in images ==>
          LatestSave(saves, url).Some? && images[url] == saves[LatestSave(saves, url).value].data)
  }

  ghost predicate Describes(saves: seq<Saved>, wiped: nat, present: bool, c: Cache) {
    && QueueDescribed(saves, c.keys)
    && c.store.Some? == present
    && wiped <= |saves|
    && (present ==> StoreDescribed(saves, wiped, c.store.value))
  }

  lemma LatestSaveNext(saves: seq<Saved>, x: Saved, url: string)
    ensures LatestSave(saves + [x], url) == if x.url == url then Some(|saves|) else LatestSave(saves, url)
  {
    var longer := saves + [x];
    assert longer[..|longer| - 1] == saves;
  }

  lemma StoredNext(saves: seq<Saved>, x: Saved, wiped: nat, url: string)
    requires wiped <= |saves|
    ensures Stored(saves + [x], wiped, url) <==>
      && (x.url == url || Stored(saves, wiped, url))
      && (|saves| >= CAPACITY ==> saves[|saves| - CAPACITY].url != url)
  {
    var longer := saves + [x];
    LatestSaveNext(saves, x, url);
    assert forall k :: 0 <= k < |saves| ==> longer[k] == saves[k];
    if Stored(longer, wiped, url) {
      if |saves| >= CAPACITY {
        assert longer[|saves| - CAPACITY].url != url;
      }
      if x.url != url {
        forall k | 0 <= k && LatestSave(saves, url).value <= k + CAPACITY < |saves| ensures saves[k].url != url {
          assert longer[k].url != url;
        }
      }
    }
  }

  lemma QueueNext(saves: seq<Saved>, c: Cache, url: string, data: Data)
    requires QueueDescribed(saves, c.keys) && c.store.Some?
    ensures QueueDescribed(saves + [Saved(url, data)], Apply(c, Save(url, data)).keys)
    ensures |saves| >= CAPACITY ==> (c.keys + [url])[0] == saves[|saves| - CAPACITY].url
  {
  }

  lemma StoreNext(saves: seq<Saved>, wiped: nat, images: map<string, Data>, url: string, data: Data, images': map<string, Data>)
    requires StoreDescribed(saves, wiped, images) && wiped <= |saves|
    requires images' == if |saves| >= CAPACITY then images[url := data] - {saves[|saves| - CAPACITY].url} else images[url := data]
    ensures StoreDescribed(saves + [Saved(url, data)], wiped, images')
  {
    var x := Saved(url, data);
    forall u ensures u in images' <==> Stored(saves + [x], wiped, u) {
      StoredNext(saves, x, wiped, u);
    }
    forall u | u in images'
      ensures LatestSave(saves + [x], u).Some? && images'[u] == (saves + [x])[LatestSave(saves + [x], u).value].data
    {
      LatestSaveNext(saves, x, u);
    }
  }

  lemma SaveDescribed(saves: seq<Saved>, wiped: nat, c: Cache, url: string, data: Data)
    requires Describes(saves, wiped, true, c)
    ensures Describes(saves + [Saved(url, data)], wiped, true, Apply(c, Save(url, data)))
  {
    QueueNext(saves, c, url, data);
    StoreNext(saves, wiped, c.store.value, url, data, Apply(c, Save(url, data)).store.value);
  }

  lemma WipedDescribed(saves: seq<Saved>, wiped: nat, present: bool, c: Cache, e: Event)
    requires Describes(saves, wiped, present, c) && !e.Save?
    ensures Describes(saves, |saves|, e.Reset?, Apply(c, e))
  {
  }

  /** After every run from a launch, the cache is what the run's saves, wipes and evictions
      say it is. */
  lemma {:induction false} RunDescribed(present: bool, events: seq<Event>)
    ensures Describes(Saves(present, events), Wiped(present, events), Present(present, events), Run(Start(present), events))
    decreases |events|
  {
    if events != [] {
      var before, last := events[..|events| - 1], events[|events| - 1];
      var c := Run(Start(present), before);
      var saves, wiped := Saves(present, before), Wiped(present, before);
      RunDescribed(present, before);
      match last
      case Save(url, data) =>
        if Present(present, before) {
          SaveDescribed(saves, wiped, c, url, data);
        } else {
          assert saves + [] == saves;
        }
      case Clear => assert saves + [] == saves; WipedDescribed(saves, wiped, Present(present, before), c, last);
      case Reset => assert saves + [] == saves; WipedDescribed(saves, wiped, Present(present, before), c, last);
    }
  }

  // ----- the bound

  function Elements(s: seq<string>): set<string> {
    set x | x in s
  }

  lemma {:induction false} ElementsBound(s: seq<string>)
    ensures |Elements(s)| <= |s|
  {
    if s != [] {
      ElementsBound(s[1..]);
      assert Elements(s) == {s[0]} + Elements(s[1..]);
    }
  }

  lemma {:induction false} SubsetBound(a: set<string>, b: set<string>)
    requires a <= b
    ensures |a| <= |b|
    decreases a
  {
    if a != {} {
      var x :| x in a;
      SubsetBound(a - {x}, b - {x});
    }
  }

  /** A stored URL is still queued: otherwise its latest save would have been evicted. */
  lemma InQueue(saves: seq<Saved>, wiped: nat, url: string, keys: seq<string>)
    requires QueueDescribed(saves, keys) && Stored(saves, wiped, url)
    ensures url in keys
  {
    var j := LatestSave(saves, url).value;
    assert saves[j].url == url;
    assert !(j + CAPACITY < |saves|);
    assert keys[j - (|saves| - |keys|)] == url;
  }

  /** Over every run the queue never exceeds sixty keys, every stored URL is in the queue,
      and so at most sixty images are stored, despite duplicate keys and independent resets. */
  lemma CacheIsBounded(present: bool, events: seq<Event>)
    ensures var c := Run(Start(present), events);
      && |c.keys| <= 60
      && (c.store.Some? ==> (forall url :: url in c.store.value ==> url in c.keys) && |c.store.value| <= 60)
  {
    RunDescribed(present, events);
    var c := Run(Start(present), events);
    var saves, wiped := Saves(present, events), Wiped(present, events);
    if c.store.Some? {
      forall url | url in c.store.value ensures url in c.keys {
        InQueue(saves, wiped, url, c.keys);
      }
      ElementsBound(c.keys);
      SubsetBound(c.store.value.Keys, Elements(c.keys));
    }
  }
}
