/** The job queue's serializer and the queue service. A queued job is the
    record `[method, class_name, args, kwargs]`; the class is looked up
    again by its dotted name when a worker loads the job, and the instance
    comes from the dependency injector.

    JSON text and its UTF-8 bytes are represented by a token stream with a
    round-trip proof: the exact characters are not modelled. */
module Dispatch {
  import opened Wrappers

  // ---------------------------------------------------------------------
  // JSON values and their encoding

  datatype Json =
    | JNull
    | JBool(b: bool)
    | JNumber(n: int)
    | JString(s: string)
    | JArray(items: seq<Json>)
    | JObject(members: seq<Member>)

  /** One `"key": value` pair; object members keep their order. */
  datatype Member = Member(key: string, value: Json)

  /** The serialized form: a prefix stream in which arrays and objects
      announce how many elements follow. */
  datatype Token =
    | TNull
    | TBool(b: bool)
    | TNumber(n: int)
    | TString(s: string)
    | TArray(count: nat)
    | TObject(count: nat)
    | TKey(key: string)

  function Size(j: Json): (n: nat)
    ensures n >= 1
    decreases j, 1
  {
    match j
    case JArray(items) => 1 + SizeAll(items)
    case JObject(members) => 1 + SizeMembers(members)
    case _ => 1
  }

  function SizeAll(items: seq<Json>): nat
    decreases items, 0
  {
    if items == [] then 0 else Size(items[0]) + SizeAll(items[1..])
  }

  function SizeMembers(members: seq<Member>): nat
    decreases members, 0
  {
    if members == [] then 0 else 1 + Size(members[0].value) + SizeMembers(members[1..])
  }

  /** `json.dumps` followed by `.encode('utf-8')`. */
  function Encode(j: Json): (ts: seq<Token>)
    ensures |ts| >= 1
    decreases Size(j), 0
  {
    match j
    case JNull => [TNull]
    case JBool(b) => [TBool(b)]
    case JNumber(n) => [TNumber(n)]
    case JString(s) => [TString(s)]
    case JArray(items) => [TArray(|items|)] + EncodeAll(items)
    case JObject(members) => [TObject(|members|)] + EncodeMembers(members)
  }

  function EncodeAll(items: seq<Json>): seq<Token>
    decreases SizeAll(items), 1
  {
    if items == [] then [] else Encode(items[0]) + EncodeAll(items[1..])
  }

  function EncodeMembers(members: seq<Member>): seq<Token>
    decreases SizeMembers(members), 1
  {
    if members == [] then []
    else [TKey(members[0].key)] + Encode(members[0].value) + EncodeMembers(members[1..])
  }

  /** `s.decode('utf-8')` followed by `json.loads`, one value at the front
      of the stream; the rest of the stream is returned. */
  function Decode(ts: seq<Token>): (r: Option<(Json, seq<Token>)>)
    ensures r.Some? ==> |r.value.1| < |ts|
    decreases |ts|, 0
  {
    if ts == [] then None
    else match ts[0]
      case TNull => Some((JNull, ts[1..]))
      case TBool(b) => Some((JBool(b), ts[1..]))
      case TNumber(n) => Some((JNumber(n), ts[1..]))
      case TString(s) => Some((JString(s), ts[1..]))
      case TArray(count) =>
        (match DecodeAll(ts[1..], count)
         case None => None
         case Some((items, rest)) => Some((JArray(items), rest)))
      case TObject(count) =>
        (match DecodeMembers(ts[1..], count)
         case None => None
         case Some((members, rest)) => Some((JObject(members), rest)))
      case TKey(_) => None
  }

  function DecodeAll(ts: seq<Token>, count: nat): (r: Option<(seq<Json>, seq<Token>)>)
    ensures r.Some? ==> |r.value.1| <= |ts| && |r.value.0| == count
    decreases |ts|, count
  {
    if count == 0 then Some(([], ts))
    else match Decode(ts)
      case None => None
      case Some((first, rest)) =>
        (match DecodeAll(rest, count - 1)
         case None => None
         case Some((others, tail)) => Some(([first] + others, tail)))
  }

  function DecodeMembers(ts: seq<Token>, count: nat): (r: Option<(seq<Member>, seq<Token>)>)
    ensures r.Some? ==> |r.value.1| <= |ts| && |r.value.0| == count
    decreases |ts|, count
  {
    if count == 0 then Some(([], ts))
    else if ts == [] || !ts[0].TKey? then None
    else match Decode(ts[1..])
      case None => None
      case Some((value, rest)) =>
        (match DecodeMembers(rest, count - 1)
         case None => None
         case Some((others, tail)) => Some(([Member(ts[0].key, value)] + others, tail)))
  }

  /** Decoding reads back exactly the encoded value and leaves whatever
      followed it. */
  lemma {:induction false} DecodeEncode(j: Json, rest: seq<Token>)
    ensures Decode(Encode(j) + rest) == Some((j, rest))
    decreases Size(j), 0
  {
    if j.JArray? {
      var ts := Encode(j) + rest;
      assert ts == [TArray(|j.items|)] + (EncodeAll(j.items) + rest);
      assert ts[1..] == EncodeAll(j.items) + rest;
      DecodeEncodeAll(j.items, rest);
    } else if j.JObject? {
      var ts := Encode(j) + rest;
      assert ts == [TObject(|j.members|)] + (EncodeMembers(j.members) + rest);
      assert ts[1..] == EncodeMembers(j.members) + rest;
      DecodeEncodeMembers(j.members, rest);
    } else {
      DecodeEncodeScalar(j, rest);
    }
  }

  /** A scalar is one token. */
  lemma DecodeEncodeScalar(j: Json, rest: seq<Token>)
    requires !j.JArray? && !j.JObject?
    ensures Decode(Encode(j) + rest) == Some((j, rest))
  {
    assert |Encode(j)| == 1;
    assert (Encode(j) + rest)[1..] == rest;
  }

  lemma {:induction false} DecodeEncodeAll(items: seq<Json>, rest: seq<Token>)
    ensures DecodeAll(EncodeAll(items) + rest, |items|) == Some((items, rest))
    decreases SizeAll(items), 1
  {
    if items != [] {
      var tail := EncodeAll(items[1..]) + rest;
      assert EncodeAll(items) + rest == Encode(items[0]) + tail;
      DecodeEncode(items[0], tail);
      DecodeEncodeAll(items[1..], rest);
      assert [items[0]] + items[1..] == items;
    } else {
      assert EncodeAll(items) + rest == rest;
    }
  }

  lemma {:induction false} DecodeEncodeMembers(members: seq<Member>, rest: seq<Token>)
    ensures DecodeMembers(EncodeMembers(members) + rest, |members|) == Some((members, rest))
    decreases SizeMembers(members), 1
  {
    if members != [] {
      var tail := EncodeMembers(members[1..]) + rest;
      var ts := EncodeMembers(members) + rest;
      assert ts == [TKey(members[0].key)] + (Encode(members[0].value) + tail);
      assert ts[1..] == Encode(members[0].value) + tail;
      DecodeEncode(members[0].value, tail);
      DecodeEncodeMembers(members[1..], rest);
      assert [Member(members[0].key, members[0].value)] + members[1..] == members;
    } else {
      assert EncodeMembers(members) + rest == rest;
    }
  }

  /** A whole document: one value and nothing after it. */
  function Parse(ts: seq<Token>): (r: Option<Json>)
    ensures r.Some? ==> Decode(ts).Some? && Decode(ts).value.1 == []
  {
    match Decode(ts)
    case Some((j, rest)) => if rest == [] then Some(j) else None
    case None => None
  }

  lemma ParseEncode(j: Json)
    ensures Parse(Encode(j)) == Some(j)
  {
    assert Encode(j) + [] == Encode(j);
    DecodeEncode(j, []);
  }

  // ---------------------------------------------------------------------
  // Dotted names

  /** The index of the last `.` of `s`. */
  function LastDot(s: string): (r: Option<nat>)
    ensures r.None? <==> '.' !in s
    ensures r.Some? ==> r.value < |s| && s[r.value] == '.' && '.' !in s[r.value + 1..]
  {
    if s == [] then None
    else if s[|s| - 1] == '.' then Some(|s| - 1)
    else
      var r := LastDot(s[..|s| - 1]);
      assert s == s[..|s| - 1] + [s[|s| - 1]];
      if r.Some? then
        assert s[r.value + 1..] == s[..|s| - 1][r.value + 1..] + [s[|s| - 1]];
        r
      else r
  }

  /** The index of the first `.` of `s`. */
  function FirstDot(s: string): (r: Option<nat>)
    ensures r.None? <==> '.' !in s
    ensures r.Some? ==> r.value < |s| && s[r.value] == '.' && '.' !in s[..r.value]
  {
    if s == [] then None
    else if s[0] == '.' then Some(0)
    else
      var r := FirstDot(s[1..]);
      assert s == [s[0]] + s[1..];
      if r.Some? then
        assert s[..r.value + 1] == [s[0]] + s[1..][..r.value];
        Some(r.value + 1)
      else r
  }

  datatype DispatchError =
    | NotDotted(name: string)     // the 2-element unpack of `rsplit` fails
    | Malformed                   // no document, no four-name unpack, or `class_name` is no string
    | Unresolvable(name: string)  // a component of the class path is missing

  /** `name.rsplit('.', 1)` unpacked into two names. */
  function RSplit(name: string): (r: Result<(string, string), DispatchError>)
    ensures r.Err? <==> '.' !in name
    ensures r.Err? ==> r.error == NotDotted(name)
    ensures r.Ok? ==> r.value.0 + "." + r.value.1 == name && '.' !in r.value.1
  {
    match LastDot(name)
    case None => Err(NotDotted(name))
    case Some(i) =>
      assert name == name[..i] + "." + name[i + 1..];
      Ok((name[..i], name[i + 1..]))
  }

  /** `name.split('.')`: the components between the dots. */
  function Components(name: string): (cs: seq<string>)
    ensures |cs| >= 1
    ensures forall k :: 0 <= k < |cs| ==> '.' !in cs[k]
    decreases |name|
  {
    match FirstDot(name)
    case None => [name]
    case Some(i) => [name[..i]] + Components(name[i + 1..])
  }

  /** The components joined back with dots. */
  function Dotted(cs: seq<string>): string
    requires |cs| >= 1
  {
    if |cs| == 1 then cs[0] else cs[0] + "." + Dotted(cs[1..])
  }

  /** Splitting loses nothing. */
  lemma {:induction false} ComponentsJoin(name: string)
    ensures Dotted(Components(name)) == name
    decreases |name|
  {
    match FirstDot(name)
    case None =>
    case Some(i) =>
      var cs := Components(name);
      ComponentsJoin(name[i + 1..]);
      assert cs[1..] == Components(name[i + 1..]);
      assert name == name[..i] + "." + name[i + 1..];
  }

  // ---------------------------------------------------------------------
  // Imports and the injector

  /** A class, module or other object, by identity. */
  datatype Ref = Ref(id: nat)

  /** What `__import__` and `getattr` can see: the top-level modules and
      each object's attributes. */
  datatype Registry = Registry(modules: map<string, Ref>, attrs: map<(Ref, string), Ref>)

  /** Walk the attributes `comps` from `obj`, left to right. */
  function Walk(reg: Registry, obj: Ref, comps: seq<string>, name: string): (r: Result<Ref, DispatchError>)
    ensures r.Err? ==> r.error == Unresolvable(name)
    ensures comps == [] ==> r == Ok(obj)
    ensures comps != [] && (obj, comps[0]) !in reg.attrs ==> r == Err(Unresolvable(name))
    decreases |comps|
  {
    if comps == [] then Ok(obj)
    else if (obj, comps[0]) in reg.attrs then Walk(reg, reg.attrs[(obj, comps[0])], comps[1..], name)
    else Err(Unresolvable(name))
  }

  /** Walking one more attribute is one more lookup after the walk so
      far; a missing last attribute fails, however long the name. */
  lemma {:induction false} WalkSnoc(reg: Registry, obj: Ref, comps: seq<string>, c: string, name: string)
    ensures Walk(reg, obj, comps + [c], name)
         == match Walk(reg, obj, comps, name)
            case Ok(o) => if (o, c) in reg.attrs then Ok(reg.attrs[(o, c)]) else Err(Unresolvable(name))
            case Err(e) => Err(e)
    decreases |comps|
  {
    if comps == [] {
      assert ([] + [c])[1..] == [];
    } else {
      assert (comps + [c])[1..] == comps[1..] + [c];
      if (obj, comps[0]) in reg.attrs {
        WalkSnoc(reg, reg.attrs[(obj, comps[0])], comps[1..], c, name);
      }
    }
  }

  /** The object a dotted name denotes: its first component is a module,
      each further one an attribute of the object before it. */
  function Resolve(reg: Registry, name: string): (r: Result<Ref, DispatchError>)
    ensures r.Err? ==> r.error == Unresolvable(name)
    ensures Components(name)[0] !in reg.modules ==> r.Err?
    ensures '.' !in name ==> (r.Ok? <==> name in reg.modules)
    ensures '.' !in name && name in reg.modules ==> r.value == reg.modules[name]
  {
    var cs := Components(name);
    if cs[0] in reg.modules then Walk(reg, reg.modules[cs[0]], cs[1..], name)
    else Err(Unresolvable(name))
  }

  /** A dot with none before it is the first dot. */
  lemma {:induction false} FirstDotAt(s: string, i: nat)
    requires i < |s| && s[i] == '.' && '.' !in s[..i]
    ensures FirstDot(s) == Some(i)
  {
    if i > 0 {
      assert s[0] in s[..i];
      assert s[1..][..i - 1] == s[1..i];
      assert s[1..i] == s[..i][1..];
      FirstDotAt(s[1..], i - 1);
    }
  }

  /** A two-component name is an attribute of a top-level module. */
  lemma ResolveAttribute(reg: Registry, m: string, a: string)
    requires '.' !in m && '.' !in a
    ensures Resolve(reg, m + "." + a)
         == if m in reg.modules && (reg.modules[m], a) in reg.attrs then Ok(reg.attrs[(reg.modules[m], a)])
            else Err(Unresolvable(m + "." + a))
  {
    var name := m + "." + a;
    assert name[..|m|] == m && name[|m| + 1..] == a;
    FirstDotAt(name, |m|);
    assert Components(a) == [a];
    assert Components(name) == [m, a];
  }

  /** The instance the injector provides for a class. */
  datatype Instance = Instance(cls: Ref)

  /** The serializer holds the injector's view of the loaded code. */
  datatype JobSerializer = JobSerializer(registry: Registry)

  /** `handle_import`: the module of the first component, then one
      attribute lookup per further component. */
  method HandleImport(reg: Registry, name: string) returns (r: Result<Ref, DispatchError>)
    ensures r == Resolve(reg, name)
  {
    var components := Components(name);
    if components[0] !in reg.modules {
      return Err(Unresolvable(name));
    }
    var mod := reg.modules[components[0]];
    var i := 1;
    while i < |components|
      invariant 1 <= i <= |components|
      invariant Walk(reg, mod, components[i..], name) == Resolve(reg, name)
    {
      if (mod, components[i]) !in reg.attrs {
        return Err(Unresolvable(name));
      }
      mod := reg.attrs[(mod, components[i])];
      assert components[i..][1..] == components[i + 1..];
      i := i + 1;
    }
    r := Ok(mod);
  }

  // ---------------------------------------------------------------------
  // The serializer

  /** The job data rq hands to the serializer: the dotted function name,
      the instance it is bound to, and the call's arguments. */
  datatype JobData = JobData(funcName: string, instance: Option<Instance>, args: Json, kwargs: Json)

  /** What `loads` hands back: the method name, the injector's instance of
      its class, and the arguments. */
  datatype Loaded = Loaded(methodName: Json, instance: Instance, args: Json, kwargs: Json)

  /** The record `dumps` writes: method first, then class name. */
  function Record(methodName: string, className: string, args: Json, kwargs: Json): (j: Json)
    ensures j.JArray? && |j.items| == 4
  {
    JArray([JString(methodName), JString(className), args, kwargs])
  }

  /** `dumps`: split the function name at its last dot and write the
      record; the instance is not written. */
  function Dumps(job: JobData): (r: Result<seq<Token>, DispatchError>)
    ensures r.Err? <==> '.' !in job.funcName
    ensures r.Err? ==> r.error == NotDotted(job.funcName)
    ensures r.Ok? ==> exists className, methodName ::
              className + "." + methodName == job.funcName && '.' !in methodName
              && r.value == Encode(Record(methodName, className, job.args, job.kwargs))
  {
    var (className, methodName) :- RSplit(job.funcName);
    Ok(Encode(Record(methodName, className, job.args, job.kwargs)))
  }

  /** The keys of a decoded object in order, each once: a repeated key
      keeps the place of its first occurrence, as a Python `dict` built
      from the pairs does. */
  function Keys(members: seq<Member>): (ks: seq<string>)
    ensures |ks| <= |members|
    ensures forall k :: k in ks ==> exists i :: 0 <= i < |members| && members[i].key == k
    decreases |members|
  {
    if members == [] then []
    else
      var ks := Keys(members[..|members| - 1]);
      var k := members[|members| - 1].key;
      if k in ks then ks else ks + [k]
  }

  /** With no key repeated, the keys are the members' keys in order. */
  lemma {:induction false} KeysDistinct(members: seq<Member>)
    requires forall i, j :: 0 <= i < j < |members| ==> members[i].key != members[j].key
    ensures |Keys(members)| == |members|
    ensures forall i :: 0 <= i < |members| ==> Keys(members)[i] == members[i].key
    decreases |members|
  {
    if members != [] {
      var prefix := members[..|members| - 1];
      KeysDistinct(prefix);
    }
  }

  /** The four-name unpack `[a, b, c, d] = value`: a list gives its items,
      an object its keys and a string its characters, each exactly four;
      no other value unpacks. */
  function Unpack4(j: Json): (r: Option<seq<Json>>)
    ensures r.Some? ==> |r.value| == 4
    ensures j.JArray? ==> (r.Some? <==> |j.items| == 4) && (r.Some? ==> r.value == j.items)
    ensures j.JObject? ==> (r.Some? <==> |Keys(j.members)| == 4)
    ensures j.JObject? && r.Some? ==> forall i :: 0 <= i < 4 ==> r.value[i] == JString(Keys(j.members)[i])
    ensures j.JString? ==> (r.Some? <==> |j.s| == 4)
    ensures j.JString? && r.Some? ==> forall i :: 0 <= i < 4 ==> r.value[i] == JString([j.s[i]])
    ensures j.JNull? || j.JBool? || j.JNumber? ==> r.None?
  {
    match j
    case JArray(items) => if |items| == 4 then Some(items) else None
    case JObject(members) =>
      var ks := Keys(members);
      if |ks| == 4 then Some([JString(ks[0]), JString(ks[1]), JString(ks[2]), JString(ks[3])]) else None
    case JString(s) =>
      if |s| == 4 then Some([JString([s[0]]), JString([s[1]]), JString([s[2]]), JString([s[3]])]) else None
    case _ => None
  }

  /** `loads`: read the document, unpack it into four names and resolve the
      class through `handle_import` and the injector. */
  function Loads(ser: JobSerializer, bytes: seq<Token>): (r: Result<Loaded, DispatchError>)
    ensures Parse(bytes).None? ==> r == Err(Malformed)
    ensures Parse(bytes).Some? && Unpack4(Parse(bytes).value).None? ==> r == Err(Malformed)
    ensures r.Err? ==> r.error == Malformed || r.error.Unresolvable?
    ensures r.Ok? ==> Parse(bytes).Some? && Unpack4(Parse(bytes).value).Some?
    ensures r.Ok? ==>
              var fields := Unpack4(Parse(bytes).value).value;
              && fields[1].JString? && Resolve(ser.registry, fields[1].s) == Ok(r.value.instance.cls)
              && r.value.methodName == fields[0] && r.value.args == fields[2] && r.value.kwargs == fields[3]
    ensures Parse(bytes).Some? && Unpack4(Parse(bytes).value).Some? ==>
              var fields := Unpack4(Parse(bytes).value).value;
              fields[1].JString? && Resolve(ser.registry, fields[1].s).Ok? ==> r.Ok?
  {
    match Parse(bytes)
    case None => Err(Malformed)
    case Some(j) =>
      match Unpack4(j)
      case None => Err(Malformed)
      case Some(fields) =>
        if !fields[1].JString? then Err(Malformed)
        else
          var cls :- Resolve(ser.registry, fields[1].s);
          Ok(Loaded(fields[0], Instance(cls), fields[2], fields[3]))
  }

  /** A dumped job loads back with the same method name and arguments and
      the injector's instance of the class its dotted name resolves to; the
      original instance plays no part. A class that no longer resolves
      gives an unresolvable-name error. */
  lemma LoadsDumps(ser: JobSerializer, job: JobData)
    requires '.' in job.funcName
    ensures Dumps(job).Ok?
    ensures var (className, methodName) := RSplit(job.funcName).value;
      Loads(ser, Dumps(job).value)
      == match Resolve(ser.registry, className)
         case Ok(cls) => Ok(Loaded(JString(methodName), Instance(cls), job.args, job.kwargs))
         case Err(e) => Err(e)
  {
    var (className, methodName) := RSplit(job.funcName).value;
    ParseEncode(Record(methodName, className, job.args, job.kwargs));
  }

  /** An object with four distinct keys loads as its keys: the second key
      names the class. */
  lemma LoadsObject(ser: JobSerializer, members: seq<Member>)
    requires |members| == 4
    requires forall i, j :: 0 <= i < j < 4 ==> members[i].key != members[j].key
    ensures Loads(ser, Encode(JObject(members)))
         == match Resolve(ser.registry, members[1].key)
            case Ok(cls) => Ok(Loaded(JString(members[0].key), Instance(cls),
                                      JString(members[2].key), JString(members[3].key)))
            case Err(e) => Err(e)
  {
    ParseEncode(JObject(members));
    KeysDistinct(members);
  }

  /** A four-character string loads as its characters: the second one
      names the class. */
  lemma LoadsString(ser: JobSerializer, s: string)
    requires |s| == 4
    ensures Loads(ser, Encode(JString(s)))
         == match Resolve(ser.registry, [s[1]])
            case Ok(cls) => Ok(Loaded(JString([s[0]]), Instance(cls), JString([s[2]]), JString([s[3]])))
            case Err(e) => Err(e)
  {
    ParseEncode(JString(s));
  }

  /** The instance slot never reaches the wire. */
  lemma DumpsIgnoresInstance(job: JobData, other: Option<Instance>)
    ensures Dumps(job) == Dumps(job.(instance := other))
  {
  }

  // ---------------------------------------------------------------------
  // The queue service

  /** A job as rq records it. */
  datatype Enqueued = Enqueued(funcName: string, args: Json, kwargs: Json, timeout: string)

  /** An rq queue using the job serializer. */
  class Queue {
    const serializer: JobSerializer
    var jobs: seq<Enqueued>

    constructor(serializer: JobSerializer)
      ensures this.serializer == serializer && jobs == []
    {
      this.serializer := serializer;
      jobs := [];
    }

    method EnqueueCall(funcName: string, args: Json, kwargs: Json, timeout: string)
      modifies this
      ensures jobs == old(jobs) + [Enqueued(funcName, args, kwargs, timeout)]
    {
      jobs := jobs + [Enqueued(funcName, args, kwargs, timeout)];
    }
  }

  /** The non-forking worker, listening on its queues. */
  class Worker {
    const queues: seq<Queue>
    const serializer: JobSerializer

    constructor(queues: seq<Queue>, serializer: JobSerializer)
      ensures this.queues == queues && this.serializer == serializer
    {
      this.queues := queues;
      this.serializer := serializer;
    }
  }

  /** Jobs may run for up to seven days. */
  const Timeout: string := "7d"

  class QueueService {
    const jobSerializer: JobSerializer
    var queue: Queue?
    var worker: Worker?

    /** A worker only ever exists on top of the cached queue, and both use
        the service's serializer. */
    ghost predicate Valid()
      reads this, queue, worker
    {
      (queue != null ==> queue.serializer == jobSerializer)
      && (worker != null ==> queue != null && worker.queues == [queue] && worker.serializer == jobSerializer)
    }

    constructor(jobSerializer: JobSerializer)
      ensures this.jobSerializer == jobSerializer && queue == null && worker == null
      ensures Valid()
    {
      this.jobSerializer := jobSerializer;
      queue := null;
      worker := null;
    }

    /** The queue, created on the first call and cached after that. */
    method GetQueue() returns (q: Queue)
      requires Valid()
      modifies this
      ensures Valid()
      ensures q == queue && worker == old(worker)
      ensures old(queue) != null ==> q == old(queue)
      ensures old(queue) == null ==> fresh(q) && q.jobs == []
      ensures q.serializer == jobSerializer
    {
      if queue == null {
        queue := new Queue(jobSerializer);
      }
      q := queue;
    }

    /** The worker, created on the first call over the cached queue. */
    method GetWorker() returns (w: Worker)
      requires Valid()
      modifies this
      ensures Valid()
      ensures w == worker && w.queues == [queue]
      ensures old(worker) != null ==> w == old(worker) && queue == old(queue)
      ensures old(worker) == null ==> fresh(w)
      ensures old(queue) != null ==> queue == old(queue)
    {
      if worker == null {
        var q := GetQueue();
        worker := new Worker([q], jobSerializer);
      }
      w := worker;
    }

    /** Put a call on the queue with the fixed timeout. */
    method Enqueue(funcName: string, args: Json, kwargs: Json)
      requires Valid()
      modifies this, queue
      ensures Valid()
      ensures queue != null && worker == old(worker)
      ensures old(queue) != null ==> queue == old(queue) && queue.jobs == old(queue.jobs) + [Enqueued(funcName, args, kwargs, Timeout)]
      ensures old(queue) == null ==> fresh(queue) && queue.jobs == [Enqueued(funcName, args, kwargs, Timeout)]
    {
      var q := GetQueue();
      q.EnqueueCall(funcName, args, kwargs, Timeout);
    }
  }
}
