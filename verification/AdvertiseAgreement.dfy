/** When a publisher's topic and type are those of the advertisement that the server stored. */
module AdvertiseAgreement {
  import opened Common
  import opened Registry
  import opened Publications
  import opened PublicationSafety

  function PublisherOf(adv: ClientAdvertisement): Publisher {
    Publisher(adv.topic, adv.schemaName)
  }

  ghost predicate Matches(p: Tables, h: Handle) {
    forall id | id in PublishersOf(p.publishers, h) && id in ChannelsOf(p, h) ::
      PublishersOf(p.publishers, h)[id] == PublisherOf(ChannelsOf(p, h)[id])
  }

  // ------------------------------------------------------------------ later messages

  lemma StoredMatches(ros: Ros, p: Tables, h: Handle, adv: ClientAdvertisement, creation: Creation)
    requires HandleOk(p, h) && Matches(p, h) && h in p.advertised
    requires adv.channelId !in ChannelsOf(p, h)
    ensures var publishers := AdvertiseHandler(ros, p.publishers, h, adv, creation);
      Matches(StoreAdvertisement(p, h, adv).(publishers := publishers), h)
  {}

  lemma {:induction false} LaterItemsMatch(ros: Ros, p: Tables, h: Handle, items: seq<AdvertiseItem>)
    requires HandleOk(p, h) && Matches(p, h) && h in p.advertised
    ensures Matches(AdvertiseItems(ros, p, h, false, items).tables, h)
    decreases |items|
  {
    if items != [] {
      if items[0].Item? && items[0].adv.channelId !in ChannelsOf(p, h) {
        StoredMatches(ros, p, h, items[0].adv, items[0].creation);
      }
      var one := AdvertiseOne(ros, p, h, false, items[0]);
      if !one.stop {
        LaterItemsMatch(ros, one.tables, h, items[1..]);
      }
    }
  }

  // ------------------------------------------------------------------ the first message

  predicate Creates(ros: Ros, item: AdvertiseItem) {
    item.Item? && item.creation.Created? && !Unsupported(ros, item.adv)
  }

  predicate Qualifies(ros: Ros, item: AdvertiseItem, id: u32, creating: bool) {
    item.Item? && item.adv.channelId == id && (creating ==> Creates(ros, item))
  }

  /** The first of the first `n` items for channel `id`, or the first that creates its publisher. */
  function FirstFor(ros: Ros, items: seq<AdvertiseItem>, n: nat, id: u32, creating: bool): (r: Option<nat>)
    requires n <= |items|
    ensures r.Some? ==> r.value < n && items[r.value].Item?
  {
    if n == 0 then None
    else
      var r := FirstFor(ros, items, n - 1, id, creating);
      if r.Some? then r
      else if Qualifies(ros, items[n - 1], id, creating) then Some(n - 1)
      else None
  }

  /** An exception at item `k` ends the message. */
  predicate Ends(ros: Ros, items: seq<AdvertiseItem>, k: nat)
    requires k < |items|
  {
    match items[k]
    case BadItem => true
    case Item(adv, creation) =>
      creation.Threw? && !Unsupported(ros, adv) && FirstFor(ros, items, k, adv.channelId, true).None?
  }

  /** How many items are completed, from the `k`-th on. */
  function Completed(ros: Ros, items: seq<AdvertiseItem>, k: nat): (n: nat)
    requires k <= |items|
    ensures k <= n <= |items|
    decreases |items| - k
  {
    if k == |items| || Ends(ros, items, k) then k else Completed(ros, items, k + 1)
  }

  /** The item that creates a channel's publisher says the same as the first item for the channel. */
  ghost predicate FirstsAgree(ros: Ros, items: seq<AdvertiseItem>, n: nat)
    requires n <= |items|
  {
    forall id: u32 | FirstFor(ros, items, n, id, true).Some? ::
      var i, j := FirstFor(ros, items, n, id, false), FirstFor(ros, items, n, id, true);
      i.Some? && PublisherOf(items[i.value].adv) == PublisherOf(items[j.value].adv)
  }

  lemma {:induction false} CreatingNames(ros: Ros, items: seq<AdvertiseItem>, n: nat, id: u32)
    requires n <= |items|
    ensures FirstFor(ros, items, n, id, true).Some? ==> FirstFor(ros, items, n, id, false).Some?
  {
    if n > 0 {
      CreatingNames(ros, items, n - 1, id);
    }
  }

  /** `mine` holds the first item for each channel among the first `n`. */
  ghost predicate Stored(ros: Ros, items: seq<AdvertiseItem>, n: nat, mine: map<u32, ClientAdvertisement>)
    requires n <= |items|
  {
    forall id: u32 ::
      var i := FirstFor(ros, items, n, id, false);
      (id in mine <==> i.Some?) && (i.Some? ==> mine[id] == items[i.value].adv)
  }

  /** `theirs` holds the publisher of each channel that one of the first `n` items created. */
  ghost predicate Published(ros: Ros, items: seq<AdvertiseItem>, n: nat, theirs: map<u32, Publisher>)
    requires n <= |items|
  {
    forall id: u32 ::
      var j := FirstFor(ros, items, n, id, true);
      (id in theirs <==> j.Some?) && (j.Some? ==> theirs[id] == PublisherOf(items[j.value].adv))
  }

  lemma StoredNext(ros: Ros, items: seq<AdvertiseItem>, n: nat, mine: map<u32, ClientAdvertisement>)
    requires n < |items| && items[n].Item? && Stored(ros, items, n, mine)
    ensures var adv := items[n].adv;
      Stored(ros, items, n + 1, if adv.channelId in mine then mine else mine[adv.channelId := adv])
  {}

  lemma PublishedNext(ros: Ros, items: seq<AdvertiseItem>, n: nat, theirs: map<u32, Publisher>)
    requires n < |items| && items[n].Item? && Published(ros, items, n, theirs)
    ensures var adv := items[n].adv;
      Published(ros, items, n + 1,
                if adv.channelId in theirs || !Creates(ros, items[n]) then theirs
                else theirs[adv.channelId := PublisherOf(adv)])
  {}

  /** The tables of a client whose first message has completed `n` items. */
  ghost predicate After(ros: Ros, p: Tables, h: Handle, items: seq<AdvertiseItem>, n: nat)
    requires n <= |items|
  {
    && h in p.advertised && h in p.clientChannels
    && Stored(ros, items, n, ChannelsOf(p, h))
    && Published(ros, items, n, PublishersOf(p.publishers, h))
  }

  /** What an item that is not turned away does to the client's two tables. */
  lemma OneStores(ros: Ros, p: Tables, h: Handle, adv: ClientAdvertisement, creation: Creation)
    requires h in p.advertised
    ensures var mine, theirs := ChannelsOf(p, h), PublishersOf(p.publishers, h);
      var p' := AdvertiseOne(ros, p, h, true, Item(adv, creation)).tables;
      var id := adv.channelId;
      && h in p'.advertised && h in p'.clientChannels
      && ChannelsOf(p', h) == (if id in mine then mine else mine[id := adv])
      && PublishersOf(p'.publishers, h)
         == if id in theirs || !Creates(ros, Item(adv, creation)) then theirs
            else theirs[id := PublisherOf(adv)]
  {}

  lemma AfterOne(ros: Ros, p: Tables, h: Handle, items: seq<AdvertiseItem>, n: nat)
    requires n < |items| && After(ros, p, h, items, n)
    ensures AdvertiseOne(ros, p, h, true, items[n]).stop == Ends(ros, items, n)
    ensures !Ends(ros, items, n) ==>
              After(ros, AdvertiseOne(ros, p, h, true, items[n]).tables, h, items, n + 1)
  {
    if items[n].Item? {
      OneStores(ros, p, h, items[n].adv, items[n].creation);
      StoredNext(ros, items, n, ChannelsOf(p, h));
      PublishedNext(ros, items, n, PublishersOf(p.publishers, h));
    }
  }

  lemma AfterMatches(ros: Ros, p: Tables, h: Handle, items: seq<AdvertiseItem>, n: nat)
    requires n <= |items| && After(ros, p, h, items, n)
    ensures Matches(p, h) <==> FirstsAgree(ros, items, n)
  {
    forall id: u32
      ensures FirstFor(ros, items, n, id, true).Some? ==> FirstFor(ros, items, n, id, false).Some?
    {
      CreatingNames(ros, items, n, id);
    }
  }

  lemma EndKeepsMatch(ros: Ros, p: Tables, h: Handle, items: seq<AdvertiseItem>, n: nat)
    requires n < |items| && After(ros, p, h, items, n) && Ends(ros, items, n)
    ensures Matches(AdvertiseOne(ros, p, h, true, items[n]).tables, h) <==> Matches(p, h)
  {
    forall id: u32 ensures id in PublishersOf(p.publishers, h) ==> id in ChannelsOf(p, h) {
      CreatingNames(ros, items, n, id);
    }
    if items[n].Item? {
      OneStores(ros, p, h, items[n].adv, items[n].creation);
    }
  }

  lemma {:induction false} FirstItemsMatch(ros: Ros, p: Tables, h: Handle, items: seq<AdvertiseItem>,
                                           n: nat)
    requires n <= |items| && After(ros, p, h, items, n)
    ensures Matches(AdvertiseItems(ros, p, h, true, items[n..]).tables, h)
            <==> FirstsAgree(ros, items, Completed(ros, items, n))
    decreases |items| - n
  {
    AfterMatches(ros, p, h, items, n);
    if n < |items| {
      AfterOne(ros, p, h, items, n);
      assert items[n..][0] == items[n] && items[n..][1..] == items[n + 1..];
      if Ends(ros, items, n) {
        EndKeepsMatch(ros, p, h, items, n);
      } else {
        FirstItemsMatch(ros, AdvertiseOne(ros, p, h, true, items[n]).tables, h, items, n + 1);
      }
    }
  }

  // ------------------------------------------------------------------ whole messages

  /**
   An advertise message keeps publishers and advertisements matching unless it is the client's
   first, for which it does exactly when every publisher that it creates says what the first item
   for its channel said.
   */
  lemma AdvertiseMatchesIff(ros: Ros, p: Tables, h: Handle, items: seq<AdvertiseItem>)
    requires TablesOk(p) && Matches(p, h)
    ensures Matches(AdvertiseMessage(ros, p, h, items).tables, h)
            <==> || h !in p.advertised || h in p.clientChannels
                 || FirstsAgree(ros, items, Completed(ros, items, 0))
  {
    assert HandleOk(p, h);
    if h in p.advertised {
      var p' := p.(clientChannels := p.clientChannels[h := ChannelsOf(p, h)]);
      if h in p.clientChannels {
        LaterItemsMatch(ros, p', h, items);
      } else {
        assert PublishersOf(p.publishers, h).Keys == {};
        assert items[0..] == items;
        FirstItemsMatch(ros, p', h, items, 0);
      }
    }
  }

  // ------------------------------------------------------------------ what a client can know

  /** `FirstFor` finds the first item that qualifies. */
  lemma {:induction false} FirstForIs(ros: Ros, items: seq<AdvertiseItem>, n: nat, id: u32, creating: bool)
    requires n <= |items|
    ensures var r := FirstFor(ros, items, n, id, creating);
      && (r.Some? ==> Qualifies(ros, items[r.value], id, creating))
      && forall k | 0 <= k < (if r.Some? then r.value else n) :: !Qualifies(ros, items[k], id, creating)
  {
    if n > 0 {
      FirstForIs(ros, items, n - 1, id, creating);
    }
  }

  /** Without refusals, a completed item for a channel without a publisher creates one. */
  lemma {:induction false} CompletedCreate(ros: Ros, items: seq<AdvertiseItem>, n: nat, id: u32)
    requires n <= |items| && forall k | 0 <= k < n :: !Ends(ros, items, k)
    requires forall k | 0 <= k < n && items[k].Item? ::
               !items[k].creation.Refused? && !Unsupported(ros, items[k].adv)
    ensures FirstFor(ros, items, n, id, true) == FirstFor(ros, items, n, id, false)
  {
    if n > 0 {
      CompletedCreate(ros, items, n - 1, id);
      assert !Ends(ros, items, n - 1);
    }
  }

  lemma {:induction false} CompletedGoOn(ros: Ros, items: seq<AdvertiseItem>, k: nat)
    requires k <= |items|
    ensures forall i | k <= i < Completed(ros, items, k) :: !Ends(ros, items, i)
    decreases |items| - k
  {
    if k < |items| && !Ends(ros, items, k) {
      CompletedGoOn(ros, items, k + 1);
    }
  }

  /** Where a creation succeeds or throws, as on ROS 2, every message keeps the match. */
  lemma NeverRefusedMatches(p: Tables, h: Handle, items: seq<AdvertiseItem>)
    requires TablesOk(p) && Matches(p, h)
    requires forall k | 0 <= k < |items| && items[k].Item? :: !items[k].creation.Refused?
    ensures Matches(AdvertiseMessage(Ros2, p, h, items).tables, h)
  {
    AdvertiseMatchesIff(Ros2, p, h, items);
    var n := Completed(Ros2, items, 0);
    CompletedGoOn(Ros2, items, 0);
    forall id: u32 ensures FirstFor(Ros2, items, n, id, true) == FirstFor(Ros2, items, n, id, false) {
      CompletedCreate(Ros2, items, n, id);
    }
  }

  /** The items that a message becomes with ROS's answers; `None` does not parse. */
  function Answered(msg: seq<Option<ClientAdvertisement>>, answers: seq<Creation>)
    : (items: seq<AdvertiseItem>)
    requires |msg| == |answers|
    ensures |items| == |msg|
  {
    seq(|msg|, i requires 0 <= i < |msg| =>
      match msg[i]
      case None => BadItem
      case Some(adv) => Item(adv, answers[i]))
  }

  /** Before the first malformed item, the `j`-th repeats a channel that the `i`-th names first. */
  ghost predicate Repeats(msg: seq<Option<ClientAdvertisement>>, i: nat, j: nat)
    requires i < j < |msg|
  {
    && (forall k | 0 <= k <= j :: msg[k].Some?)
    && msg[i].value.channelId == msg[j].value.channelId
    && (forall k | 0 <= k < i :: msg[k].value.channelId != msg[j].value.channelId)
  }

  /** Supported repeats of a channel say what its first item says. */
  ghost predicate RepeatsAgree(ros: Ros, msg: seq<Option<ClientAdvertisement>>) {
    forall i, j | 0 <= i < j < |msg| && Repeats(msg, i, j) && !Unsupported(ros, msg[j].value) ::
      PublisherOf(msg[i].value) == PublisherOf(msg[j].value)
  }

  lemma RepeatsAgreeMatches(ros: Ros, msg: seq<Option<ClientAdvertisement>>, answers: seq<Creation>)
    requires RepeatsAgree(ros, msg) && |answers| == |msg|
    ensures var items := Answered(msg, answers);
      FirstsAgree(ros, items, Completed(ros, items, 0))
  {
    var items := Answered(msg, answers);
    var n := Completed(ros, items, 0);
    CompletedGoOn(ros, items, 0);
    forall id: u32 | FirstFor(ros, items, n, id, true).Some?
      ensures var i, j := FirstFor(ros, items, n, id, false), FirstFor(ros, items, n, id, true);
        i.Some? && PublisherOf(items[i.value].adv) == PublisherOf(items[j.value].adv)
    {
      FirstForIs(ros, items, n, id, false);
      FirstForIs(ros, items, n, id, true);
      var j := FirstFor(ros, items, n, id, true).value;
      assert Qualifies(ros, items[j], id, false);
      var i := FirstFor(ros, items, n, id, false).value;
      if i < j {
        FirstRepeat(ros, msg, answers, i, j);
      }
    }
  }

  lemma FirstRepeat(ros: Ros, msg: seq<Option<ClientAdvertisement>>, answers: seq<Creation>,
                    i: nat, j: nat)
    requires i < j < |msg| == |answers|
    requires var items := Answered(msg, answers);
      && (forall k | 0 <= k <= j :: !Ends(ros, items, k))
      && items[j].Item? && Qualifies(ros, items[i], items[j].adv.channelId, false)
      && (forall k | 0 <= k < i :: !Qualifies(ros, items[k], items[j].adv.channelId, false))
    ensures Repeats(msg, i, j)
  {
    var items := Answered(msg, answers);
    forall k | 0 <= k <= j
      ensures msg[k].Some? && (k < i ==> msg[k].value.channelId != msg[j].value.channelId)
    {
      assert !Ends(ros, items, k);
      assert k < i ==> !Qualifies(ros, items[k], items[j].adv.channelId, false);
    }
  }

  /** ROS refuses everything but the `j`-th item. */
  function OnlyCreates(n: nat, j: nat): (answers: seq<Creation>)
    ensures |answers| == n
  {
    seq(n, k => if k == j then Created else Refused)
  }

  lemma DisagreementMismatches(ros: Ros, msg: seq<Option<ClientAdvertisement>>, i: nat, j: nat)
    requires i < j < |msg| && Repeats(msg, i, j) && !Unsupported(ros, msg[j].value)
    requires PublisherOf(msg[i].value) != PublisherOf(msg[j].value)
    ensures var items := Answered(msg, OnlyCreates(|msg|, j));
      !FirstsAgree(ros, items, Completed(ros, items, 0))
  {
    var items := Answered(msg, OnlyCreates(|msg|, j));
    var id := msg[j].value.channelId;
    assert forall k | 0 <= k <= j :: !Ends(ros, items, k);
    CompletesTo(ros, items, 0, j + 1);
    var n := Completed(ros, items, 0);
    FirstForIs(ros, items, n, id, true);
    FirstForIs(ros, items, n, id, false);
    assert Qualifies(ros, items[j], id, true) && Qualifies(ros, items[i], id, false);
  }

  lemma {:induction false} CompletesTo(ros: Ros, items: seq<AdvertiseItem>, k: nat, n: nat)
    requires k <= n <= |items| && forall i | k <= i < n :: !Ends(ros, items, i)
    ensures Completed(ros, items, k) >= n
    decreases n - k
  {
    if k < n {
      CompletesTo(ros, items, k + 1, n);
    }
  }

  /**
   Whatever ROS answers, a client's first message keeps the match if and only if, before its first
   malformed item, supported repeats of a channel say what the first item for the channel says.
   */
  lemma MatchesWhateverRosAnswers(ros: Ros, p: Tables, h: Handle, msg: seq<Option<ClientAdvertisement>>)
    requires TablesOk(p) && Matches(p, h) && h in p.advertised && h !in p.clientChannels
    ensures (forall answers: seq<Creation> | |answers| == |msg| ::
               Matches(AdvertiseMessage(ros, p, h, Answered(msg, answers)).tables, h))
            <==> RepeatsAgree(ros, msg)
  {
    forall answers: seq<Creation> | |answers| == |msg|
      ensures Matches(AdvertiseMessage(ros, p, h, Answered(msg, answers)).tables, h)
              <==> FirstsAgree(ros, Answered(msg, answers), Completed(ros, Answered(msg, answers), 0))
    {
      AdvertiseMatchesIff(ros, p, h, Answered(msg, answers));
    }
    if RepeatsAgree(ros, msg) {
      forall answers: seq<Creation> | |answers| == |msg|
        ensures Matches(AdvertiseMessage(ros, p, h, Answered(msg, answers)).tables, h)
      {
        RepeatsAgreeMatches(ros, msg, answers);
      }
    } else {
      var i, j :| 0 <= i < j < |msg| && Repeats(msg, i, j) && !Unsupported(ros, msg[j].value)
                  && PublisherOf(msg[i].value) != PublisherOf(msg[j].value);
      DisagreementMismatches(ros, msg, i, j);
      assert !Matches(AdvertiseMessage(ros, p, h, Answered(msg, OnlyCreates(|msg|, j))).tables, h);
    }
  }

  /** On ROS 1 a first message that repeats an id after a refusal breaks the match. */
  lemma RefusedRepeatMismatches(h: Handle)
    ensures var items := [Item(ClientAdvertisement(1, "/a", "ros1", "pkg/A"), Refused),
                          Item(ClientAdvertisement(1, "/b", "ros1", "pkg/B"), Created)];
      var p := AdvertiseMessage(Ros1, OpenTables(NoTables, h), h, items).tables;
      && 1 in ChannelsOf(p, h) && ChannelsOf(p, h)[1].topic == "/a"
      && 1 in PublishersOf(p.publishers, h) && PublishersOf(p.publishers, h)[1].topic == "/b"
  {
    var a := Item(ClientAdvertisement(1, "/a", "ros1", "pkg/A"), Refused);
    var b := Item(ClientAdvertisement(1, "/b", "ros1", "pkg/B"), Created);
    var p0 := OpenTables(NoTables, h).(clientChannels := map[h := map[]]);
    var p1 := StoreAdvertisement(p0, h, a.adv).(publishers := map[h := map[]]);
    assert [a, b][1..] == [b] && [b][1..] == [];
    assert AdvertiseItems(Ros1, p0, h, true, [a, b]) == AdvertiseItems(Ros1, p1, h, true, [b]);
  }
}
