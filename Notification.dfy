/**
 * The notification value and the mutable builder that produces it
 * (C2DMNotificationBuilder).
 */
module Notification {
  import opened Wrappers

  /** A (name, value) string pair: a payload entry or a form field. */
  datatype NameValue = NameValue(name: string, value: string)

  /** The built notification, a value snapshot of the builder's fields. */
  datatype C2DMNotification = C2DMNotification(
    collapseKey: string,
    delayWhileIdle: bool,
    data: seq<NameValue>)

  /** The exception `build` throws when the collapse key is missing. */
  datatype BuildError = CollapseKeyMissing

  /** Prefix `data` puts in front of every payload name. */
  const DataPrefix: string := "data."

  /** The payload entry `data(name, value)` appends. */
  function DataEntry(name: string, value: string): (e: NameValue)
    ensures |e.name| == |DataPrefix| + |name|
    ensures e.name[..|DataPrefix|] == DataPrefix && e.name[|DataPrefix|..] == name
    ensures e.value == value
  {
    NameValue(DataPrefix + name, value)
  }

  /** True of payloads whose every name carries the `data.` prefix. */
  predicate AllPrefixed(data: seq<NameValue>) {
    forall i :: 0 <= i < |data| ==>
      |DataPrefix| <= |data[i].name| && data[i].name[..|DataPrefix|] == DataPrefix
  }

  class C2DMNotificationBuilder {
    /** None models the Java field still being null. */
    var collapseKey: Option<string>
    var delayWhileIdle: bool
    var data: seq<NameValue>

    /** A prefixed payload is all `data` can ever produce. */
    ghost predicate Valid()
      reads this
    {
      AllPrefixed(data)
    }

    constructor ()
      ensures Valid()
      ensures collapseKey == None && !delayWhileIdle && data == []
    {
      collapseKey := None;
      delayWhileIdle := false;
      data := [];
    }

    /** Sets (or, with None, clears) the collapse key; last call wins. */
    method CollapseKey(key: Option<string>)
      requires Valid()
      modifies this
      ensures Valid()
      ensures collapseKey == key
      ensures delayWhileIdle == old(delayWhileIdle) && data == old(data)
    {
      collapseKey := key;
    }

    /** Overwrites the delay-while-idle flag. */
    method DelayWhileIdle(delay: bool)
      requires Valid()
      modifies this
      ensures Valid()
      ensures delayWhileIdle == delay
      ensures collapseKey == old(collapseKey) && data == old(data)
    {
      delayWhileIdle := delay;
    }

    /** Appends one payload entry named `data.` + `name`. */
    method Data(name: string, value: string)
      requires Valid()
      modifies this
      ensures Valid()
      ensures data == old(data) + [DataEntry(name, value)]
      ensures collapseKey == old(collapseKey) && delayWhileIdle == old(delayWhileIdle)
    {
      data := data + [DataEntry(name, value)];
    }

    /**
     * checkInitialization then the constructor call: fails exactly when no
     * collapse key was set (an empty key is accepted), and otherwise hands
     * over the current fields unchanged.
     */
    method Build() returns (r: Result<C2DMNotification, BuildError>)
      requires Valid()
      ensures r.Failure? <==> collapseKey.None?
      ensures r.Failure? ==> r.error == CollapseKeyMissing
      ensures r.Success? ==> r.value == C2DMNotification(collapseKey.value, delayWhileIdle, data)
      ensures r.Success? ==> AllPrefixed(r.value.data)
    {
      if collapseKey.None? {
        return Failure(CollapseKeyMissing);
      }
      r := Success(C2DMNotification(collapseKey.value, delayWhileIdle, data));
    }
  }

  /**
   * A client of the builder: set the collapse key and the flag, call
   * `data` once per entry in order, then build. The payload keeps call
   * order and every duplicate, each name gaining the `data.` prefix.
   */
  method BuildWith(key: string, delay: bool, entries: seq<NameValue>)
    returns (n: C2DMNotification)
    ensures n.collapseKey == key && n.delayWhileIdle == delay
    ensures |n.data| == |entries|
    ensures forall i :: 0 <= i < |entries| ==>
      n.data[i] == NameValue(DataPrefix + entries[i].name, entries[i].value)
  {
    var b := new C2DMNotificationBuilder();
    b.CollapseKey(Some(key));
    b.DelayWhileIdle(delay);
    var i := 0;
    while i < |entries|
      invariant 0 <= i <= |entries|
      invariant b.Valid()
      invariant b.collapseKey == Some(key) && b.delayWhileIdle == delay
      invariant |b.data| == i
      invariant forall j :: 0 <= j < i ==>
        b.data[j] == NameValue(DataPrefix + entries[j].name, entries[j].value)
    {
      b.Data(entries[i].name, entries[i].value);
      i := i + 1;
    }
    var r := b.Build();
    n := r.value;
  }

  /** A builder whose collapse key was never set refuses to build. */
  method BuildWithoutKey(delay: bool, entries: seq<NameValue>)
    returns (r: Result<C2DMNotification, BuildError>)
    ensures r == Failure(CollapseKeyMissing)
  {
    var b := new C2DMNotificationBuilder();
    b.DelayWhileIdle(delay);
    for i := 0 to |entries|
      invariant b.Valid() && b.collapseKey == None
    {
      b.Data(entries[i].name, entries[i].value);
    }
    r := b.Build();
  }
}
