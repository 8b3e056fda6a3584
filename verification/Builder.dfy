/** `PaymentExecutorBuilder`: the registry of executors, keyed by upper-cased partner and channel. */
module Builder {
  import opened Wrappers
  import opened PaymentDomain
  import opened World
  import opened Executor

  function ExecutorKey(partner: string, channel: string): string {
    Upper(partner) + "_" + channel
  }

  function KeyOf(e: BasePaymentExecutor): string {
    ExecutorKey(e.partner, e.channel)
  }

  /** The last registration under a key. */
  function LastFor(registered: seq<BasePaymentExecutor>, key: string): Option<BasePaymentExecutor> {
    if registered == [] then None
    else if KeyOf(registered[|registered| - 1]) == key then Some(registered[|registered| - 1])
    else LastFor(registered[..|registered| - 1], key)
  }

  /** The keys in the order of their first registration, as a JavaScript `Map` lists them. */
  function KeyOrder(registered: seq<BasePaymentExecutor>): seq<string> {
    if registered == [] then []
    else
      var before, key := KeyOrder(registered[..|registered| - 1]), KeyOf(registered[|registered| - 1]);
      if key in before then before else before + [key]
  }

  /** Registration `i` is under `key`, and no later one is. */
  ghost predicate IsLast(registered: seq<BasePaymentExecutor>, key: string, i: int) {
    && 0 <= i < |registered| && KeyOf(registered[i]) == key
    && forall j :: i < j < |registered| ==> KeyOf(registered[j]) != key
  }

  lemma {:induction false} LastForIsLast(registered: seq<BasePaymentExecutor>, key: string)
    ensures LastFor(registered, key).None? <==> forall i :: 0 <= i < |registered| ==> KeyOf(registered[i]) != key
    ensures LastFor(registered, key).Some? ==>
              exists i :: IsLast(registered, key, i) && registered[i] == LastFor(registered, key).value
  {
    hide KeyOf;
    if registered != [] {
      var before, n := registered[..|registered| - 1], |registered| - 1;
      if KeyOf(registered[n]) == key {
        assert IsLast(registered, key, n);
      } else {
        LastForIsLast(before, key);
        assert forall i :: 0 <= i < n ==> registered[i] == before[i];
        if i :| IsLast(before, key, i) && before[i] == LastFor(before, key).value {
          assert IsLast(registered, key, i);
        }
      }
    }
  }

  function FirstIndex(registered: seq<BasePaymentExecutor>, key: string): (i: nat)
    ensures i <= |registered|
  {
    if registered == [] || KeyOf(registered[0]) == key then 0 else 1 + FirstIndex(registered[1..], key)
  }

  lemma {:induction false} FirstIndexAppend(registered: seq<BasePaymentExecutor>, e: BasePaymentExecutor, key: string)
    ensures FirstIndex(registered + [e], key) ==
            if FirstIndex(registered, key) < |registered| then FirstIndex(registered, key)
            else if KeyOf(e) == key then |registered| else |registered| + 1
    decreases |registered|
  {
    hide KeyOf;
    if registered == [] {
      assert [e][1..] == [];
    } else {
      assert (registered + [e])[1..] == registered[1..] + [e];
      FirstIndexAppend(registered[1..], e, key);
    }
  }

  lemma {:induction false} FirstIndexFound(registered: seq<BasePaymentExecutor>, key: string)
    ensures FirstIndex(registered, key) < |registered| <==> LastFor(registered, key).Some?
    decreases |registered|
  {
    hide KeyOf;
    if registered != [] {
      var before, last := registered[..|registered| - 1], registered[|registered| - 1];
      assert registered == before + [last];
      FirstIndexAppend(before, last, key);
      FirstIndexFound(before, key);
    }
  }

  lemma {:induction false} KeysAreRegistered(registered: seq<BasePaymentExecutor>, key: string)
    ensures key in KeyOrder(registered) <==> LastFor(registered, key).Some?
    decreases |registered|
  {
    hide KeyOf;
    if registered != [] {
      KeysAreRegistered(registered[..|registered| - 1], key);
    }
  }

  lemma {:induction false} KeysInOrder(registered: seq<BasePaymentExecutor>, i: nat, j: nat)
    requires i < j < |KeyOrder(registered)|
    ensures FirstIndex(registered, KeyOrder(registered)[i]) < FirstIndex(registered, KeyOrder(registered)[j])
    decreases |registered|
  {
    hide KeyOf, FirstIndex;
    var before, last, keys := registered[..|registered| - 1], registered[|registered| - 1], KeyOrder(registered);
    var earlier := KeyOrder(before);
    assert registered == before + [last];
    assert earlier[i] in earlier && keys[i] == earlier[i];
    KeysAreRegistered(before, keys[i]);
    KeysAreRegistered(before, keys[j]);
    FirstIndexFound(before, keys[i]);
    FirstIndexFound(before, keys[j]);
    FirstIndexAppend(before, last, keys[i]);
    FirstIndexAppend(before, last, keys[j]);
    if j < |earlier| {
      assert earlier[j] in earlier;
      KeysInOrder(before, i, j);
    }
  }

  /** Every registered key once, in the order of first registration. */
  lemma KeyOrderIsFirstSeen(registered: seq<BasePaymentExecutor>)
    ensures var keys := KeyOrder(registered);
            && (forall key :: key in keys <==> LastFor(registered, key).Some?)
            && (forall i, j :: 0 <= i < j < |keys| ==> FirstIndex(registered, keys[i]) < FirstIndex(registered, keys[j]))
            && (forall i, j :: 0 <= i < j < |keys| ==> keys[i] != keys[j])
  {
    hide KeyOf, KeyOrder, FirstIndex, LastFor;
    var keys := KeyOrder(registered);
    forall key ensures key in keys <==> LastFor(registered, key).Some? {
      KeysAreRegistered(registered, key);
    }
    forall i, j | 0 <= i < j < |keys| ensures FirstIndex(registered, keys[i]) < FirstIndex(registered, keys[j]) {
      KeysInOrder(registered, i, j);
    }
  }

  predicate UnderscoreFreeChannels(registered: seq<BasePaymentExecutor>) {
    forall i :: 0 <= i < |registered| ==> '_' !in registered[i].channel
  }

  /** With underscore-free channels, equal keys mean equal channels and partners equal up to letter case. */
  lemma KeysSeparate(p: string, c: string, q: string, d: string)
    requires '_' !in c && '_' !in d
    ensures ExecutorKey(p, c) == ExecutorKey(q, d) <==> c == d && SameLetters(p, q)
  {
    UpperIffSameLetters(p, q);
    if ExecutorKey(p, c) == ExecutorKey(q, d) {
      SplitAtLast('_', Upper(p), c, Upper(q), d);
    }
  }

  /** It is enough that one of the two names its partner and its channel without underscores. */
  lemma PlainKeyIsPlain(p: string, c: string, q: string, d: string)
    requires '_' !in q && '_' !in d && ExecutorKey(p, c) == ExecutorKey(q, d)
    ensures '_' !in c
  {
    UpperIsCapital(q);
    SameLettersSame(Upper(q), q, '_');
    var k, n := ExecutorKey(p, c), |Upper(p)|;
    assert k[n] == '_' && k == ExecutorKey(q, d) && k[|Upper(q)|] == '_';
    assert forall i :: 0 <= i < |Upper(q)| ==> k[i] == Upper(q)[i] != '_';
    assert forall i :: |Upper(q)| < i < |k| ==> k[i] == d[i - |Upper(q)| - 1] != '_';
    assert n == |Upper(q)|;
    assert c == k[n + 1..] && d == k[n + 1..];
  }

  /** This registration serves the partner, in any letter case, on the channel. */
  predicate Serves(e: BasePaymentExecutor, partnerId: string, channel: string) {
    e.channel == channel && SameLetters(e.partner, partnerId)
  }

  /** Registration `i` serves the partner on the channel, and no later one does. */
  predicate LastServes(registered: seq<BasePaymentExecutor>, partnerId: string, channel: string, i: int) {
    && 0 <= i < |registered| && Serves(registered[i], partnerId, channel)
    && forall j :: i < j < |registered| ==> !Serves(registered[j], partnerId, channel)
  }

  lemma ServesByKey(e: BasePaymentExecutor, partnerId: string, channel: string)
    requires '_' !in e.channel && '_' !in channel
    ensures Serves(e, partnerId, channel) <==> KeyOf(e) == ExecutorKey(partnerId, channel)
  {
    hide ExecutorKey, SameLetters;
    KeysSeparate(e.partner, e.channel, partnerId, channel);
  }

  /** On an underscore-free channel the lookup gives the last registration that serves the partner, in any letter case,
      or nothing if none does. */
  lemma LookupServes(registered: seq<BasePaymentExecutor>, partnerId: string, channel: string)
    requires UnderscoreFreeChannels(registered) && '_' !in channel
    ensures var found := LastFor(registered, ExecutorKey(partnerId, channel));
            && (found.Some? ==> exists i :: LastServes(registered, partnerId, channel, i) && registered[i] == found.value)
            && (found.None? ==> forall i :: 0 <= i < |registered| ==> !Serves(registered[i], partnerId, channel))
  {
    hide ExecutorKey, KeyOf, SameLetters, LastFor;
    var key := ExecutorKey(partnerId, channel);
    LastForIsLast(registered, key);
    forall i | 0 <= i < |registered|
      ensures Serves(registered[i], partnerId, channel) <==> KeyOf(registered[i]) == key
    {
      ServesByKey(registered[i], partnerId, channel);
    }
    hide Serves;
    var found := LastFor(registered, key);
    if found.Some? {
      var i :| IsLast(registered, key, i) && registered[i] == found.value;
      assert LastServes(registered, partnerId, channel, i);
    }
  }

  class PaymentExecutorBuilder {
    var executors: map<string, BasePaymentExecutor>
    var order: seq<string>
    /** Every executor ever registered, in order. */
    ghost var registered: seq<BasePaymentExecutor>

    ghost predicate Valid()
      reads this
    {
      && order == KeyOrder(registered)
      && (forall key :: key in executors <==> LastFor(registered, key).Some?)
      && (forall key :: key in executors ==> LastFor(registered, key) == Some(executors[key]))
    }

    constructor (britamMpesa: BasePaymentExecutor, apaMpesa: BasePaymentExecutor, britamAirtel: BasePaymentExecutor)
      ensures Valid() && registered == [britamMpesa, apaMpesa, britamAirtel]
    {
      executors, order, registered := map[], [], [];
      new;
      Register(britamMpesa);
      Register(apaMpesa);
      Register(britamAirtel);
    }

    method Register(e: BasePaymentExecutor)
      requires Valid()
      modifies this
      ensures Valid() && registered == old(registered) + [e]
    {
      hide KeyOf;
      var key := KeyOf(e);
      KeyOrderIsFirstSeen(registered);
      if key !in executors {
        order := order + [key];
      }
      executors := executors[key := e];
      registered := registered + [e];
      assert registered[..|registered| - 1] == old(registered);
    }

    method GetExecutor(partnerId: string, channel: string) returns (r: Result<BasePaymentExecutor, Error>)
      requires Valid()
      ensures r == match LastFor(registered, ExecutorKey(partnerId, channel))
                   case Some(e) => Success(e)
                   case None => Failure(PartnerExecutorNotFound)
      ensures UnderscoreFreeChannels(registered) && '_' !in channel ==>
                if r.Success? then exists i :: LastServes(registered, partnerId, channel, i) && registered[i] == r.value
                else r.error == PartnerExecutorNotFound &&
                     forall i :: 0 <= i < |registered| ==> !Serves(registered[i], partnerId, channel)
    {
      if UnderscoreFreeChannels(registered) && '_' !in channel {
        LookupServes(registered, partnerId, channel);
      }
      hide LastServes, Serves;
      var key := ExecutorKey(partnerId, channel);
      r := if key in executors then Success(executors[key]) else Failure(PartnerExecutorNotFound);
    }

    method HasExecutor(partnerId: string, channel: string) returns (r: bool)
      requires Valid()
      ensures r <==> LastFor(registered, ExecutorKey(partnerId, channel)).Some?
    {
      r := ExecutorKey(partnerId, channel) in executors;
    }

    /** The values of the map, in its order. */
    method GetAllExecutors() returns (all: seq<BasePaymentExecutor>)
      requires Valid()
      ensures |all| == |KeyOrder(registered)|
      ensures forall i :: 0 <= i < |all| ==> LastFor(registered, KeyOrder(registered)[i]) == Some(all[i])
    {
      KeyOrderIsFirstSeen(registered);
      assert forall i :: 0 <= i < |order| ==> order[i] in order;
      var keys, table := order, executors;
      all := seq(|keys|, i requires 0 <= i < |keys| && keys[i] in table => table[keys[i]]);
    }
  }
}
