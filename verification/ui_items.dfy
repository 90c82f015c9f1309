/** The device filter of the picker (`handleResult` in ui/ui.go): every
    occurrence of the "tag:e2e" tag on a device yields one list item for
    that device, in device order. Actions are the `Action` enumeration of
    tssh.go. */
module DeviceItems {

  /** The Go `Action` enumeration (an `int` with iota constants). */
  newtype Action = int
  const ActionNone: Action := 0
  const ActionSSH: Action := 1
  const ActionDeviceSSH: Action := 2

  /** The tag that marks a device as selectable. */
  const E2eTag: string := "tag:e2e"

  /** The fields of a device the picker reads. */
  datatype Device = Device(hostname: string, user: string, tags: seq<string>)

  /** An entry of a picker list. */
  datatype ListItem = ListItem(name: string, info: string, action: Action)

  /** The item a selectable device contributes. */
  function ItemFor(d: Device): (r: ListItem)
    ensures r.name == d.hostname && r.info == d.user && r.action == ActionDeviceSSH
  {
    ListItem(d.hostname, d.user, ActionDeviceSSH)
  }

  /** The inner loop: one item for `d` per matching tag in `tags`. */
  function TagItems(d: Device, tags: seq<string>): (r: seq<ListItem>)
    ensures |r| <= |tags|
    ensures forall k :: 0 <= k < |r| ==> r[k] == ItemFor(d)
    decreases |tags|
  {
    if |tags| == 0 then []
    else (if tags[0] == E2eTag then [ItemFor(d)] else []) + TagItems(d, tags[1..])
  }

  /** The outer loop: the items of every device, in device order. */
  function FilterItems(devices: seq<Device>): (r: seq<ListItem>)
    ensures forall k :: 0 <= k < |r| ==> r[k].action == ActionDeviceSSH
    decreases |devices|
  {
    if |devices| == 0 then []
    else TagItems(devices[0], devices[0].tags) + FilterItems(devices[1..])
  }

  /** Reference count: the occurrences of the tag across all devices. */
  function TagCount(devices: seq<Device>): nat
    decreases |devices|
  {
    if |devices| == 0 then 0
    else multiset(devices[0].tags)[E2eTag] + TagCount(devices[1..])
  }

  /** The nested loops as written: walk the devices, and for each the tags,
      appending an item per match. */
  method CollectItems(devices: seq<Device>) returns (items: seq<ListItem>)
    ensures items == FilterItems(devices)
  {
    items := [];
    var i := 0;
    while i < |devices|
      invariant 0 <= i <= |devices|
      invariant items + FilterItems(devices[i..]) == FilterItems(devices)
    {
      var d := devices[i];
      var j := 0;
      var found: seq<ListItem> := [];
      while j < |d.tags|
        invariant 0 <= j <= |d.tags|
        invariant found + TagItems(d, d.tags[j..]) == TagItems(d, d.tags)
      {
        assert d.tags[j..][1..] == d.tags[j + 1..];
        if d.tags[j] == E2eTag {
          found := found + [ItemFor(d)];
        }
        j := j + 1;
      }
      assert devices[i..][1..] == devices[i + 1..];
      items := items + found;
      i := i + 1;
    }
  }

  /** One device yields exactly as many copies of its item as it carries the
      tag, and nothing else. */
  lemma {:induction false} TagItemsCopies(d: Device, tags: seq<string>)
    ensures |TagItems(d, tags)| == multiset(tags)[E2eTag]
    ensures forall k :: 0 <= k < |TagItems(d, tags)| ==> TagItems(d, tags)[k] == ItemFor(d)
    decreases |tags|
  {
    if |tags| > 0 {
      TagItemsCopies(d, tags[1..]);
      assert tags == [tags[0]] + tags[1..];
      assert multiset(tags) == multiset{tags[0]} + multiset(tags[1..]);
    }
  }

  /** The number of items is the total number of tag occurrences. */
  lemma {:induction false} ItemCountIsTagCount(devices: seq<Device>)
    ensures |FilterItems(devices)| == TagCount(devices)
    decreases |devices|
  {
    if |devices| > 0 {
      TagItemsCopies(devices[0], devices[0].tags);
      ItemCountIsTagCount(devices[1..]);
    }
  }

  /** Filtering distributes over concatenation, so items follow device
      order. */
  lemma {:induction false} FilterConcat(a: seq<Device>, b: seq<Device>)
    ensures FilterItems(a + b) == FilterItems(a) + FilterItems(b)
    decreases |a|
  {
    if |a| > 0 {
      assert (a + b)[0] == a[0];
      assert (a + b)[1..] == a[1..] + b;
      FilterConcat(a[1..], b);
    } else {
      assert a + b == b;
    }
  }

  /** Every item comes from a tagged device of the input, and every tagged
      device contributes its item. */
  lemma {:induction false} ItemsAreTaggedDevices(devices: seq<Device>)
    ensures forall it :: it in FilterItems(devices) ==>
              exists d :: d in devices && E2eTag in d.tags && it == ItemFor(d)
    ensures forall d :: d in devices && E2eTag in d.tags ==> ItemFor(d) in FilterItems(devices)
    decreases |devices|
  {
    if |devices| > 0 {
      var d0 := devices[0];
      ItemsAreTaggedDevices(devices[1..]);
      TagItemsCopies(d0, d0.tags);
      var head := TagItems(d0, d0.tags);
      assert FilterItems(devices) == head + FilterItems(devices[1..]);
      forall it | it in FilterItems(devices)
        ensures exists d :: d in devices && E2eTag in d.tags && it == ItemFor(d)
      {
        if it in head {
          assert it == ItemFor(d0);
          assert multiset(d0.tags)[E2eTag] > 0;
        } else {
          assert it in FilterItems(devices[1..]);
        }
      }
      forall d | d in devices && E2eTag in d.tags
        ensures ItemFor(d) in FilterItems(devices)
      {
        if d == d0 {
          assert multiset(d0.tags)[E2eTag] > 0;
          assert head[0] == ItemFor(d0);
        } else {
          assert d in devices[1..];
        }
      }
    }
  }
}
