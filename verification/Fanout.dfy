/** Sending to every registered subscriber and forgetting those whose receiver is gone. */
module Fanout {

  datatype Channel<T> = Channel(received: seq<T>, open: bool)

  predicate Open<T>(channels: map<int, Channel<T>>, id: int) { id in channels && channels[id].open }

  function Appended<T>(channels: map<int, Channel<T>>, id: int, value: T): map<int, Channel<T>>
    requires id in channels
  {
    channels[id := channels[id].(received := channels[id].received + [value])]
  }

  /** The value sent to the first `k` registered senders; a dropped receiver takes nothing. */
  function Sent<T>(senders: seq<int>, channels: map<int, Channel<T>>, value: T, k: nat): map<int, Channel<T>>
    requires k <= |senders|
  {
    if k == 0 then channels
    else
      var c := Sent(senders, channels, value, k - 1);
      if Open(c, senders[k - 1]) then Appended(c, senders[k - 1], value) else c
  }

  /** The senders among the first `k` whose receiver still exists. */
  function Retained<T>(senders: seq<int>, channels: map<int, Channel<T>>, k: nat): seq<int>
    requires k <= |senders|
  {
    if k == 0 then []
    else Retained(senders, channels, k - 1) + if Open(channels, senders[k - 1]) then [senders[k - 1]] else []
  }

  predicate Distinct(ids: seq<int>) { forall i, j :: 0 <= i < j < |ids| ==> ids[i] != ids[j] }

  lemma {:induction false} SentOnce<T>(senders: seq<int>, channels: map<int, Channel<T>>, value: T, k: nat)
    requires k <= |senders| && Distinct(senders)
    ensures
      var c := Sent(senders, channels, value, k);
      && c.Keys == channels.Keys
      && (forall id :: id in channels ==> (c[id] ==
            if id in senders[..k] && channels[id].open
            then channels[id].(received := channels[id].received + [value]) else channels[id]))
  {
    if k > 0 {
      SentOnce(senders, channels, value, k - 1);
      assert senders[..k] == senders[..k - 1] + [senders[k - 1]];
      assert senders[k - 1] !in senders[..k - 1];
    }
  }

  lemma {:induction false} RetainedMembers<T>(senders: seq<int>, channels: map<int, Channel<T>>, k: nat)
    requires k <= |senders| && Distinct(senders)
    ensures Distinct(Retained(senders, channels, k))
    ensures forall id :: id in Retained(senders, channels, k) <==> id in senders[..k] && Open(channels, id)
  {
    if k > 0 {
      RetainedMembers(senders, channels, k - 1);
      assert senders[..k] == senders[..k - 1] + [senders[k - 1]];
      assert senders[k - 1] !in senders[..k - 1];
    }
  }

  lemma {:induction false} SentKeepsOpen<T>(
    senders: seq<int>, channels: map<int, Channel<T>>, value: T, k: nat, id: int)
    requires k <= |senders|
    ensures Open(Sent(senders, channels, value, k), id) <==> Open(channels, id)
  {
    if k > 0 { SentKeepsOpen(senders, channels, value, k - 1, id); }
  }
}
