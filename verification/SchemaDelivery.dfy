/** From definition files to the schema in a client's view, across every interleaving. */
module SchemaDelivery {
  import opened Common
  import opened Registry
  import opened ClientView
  import opened Interleaving
  import opened Safety
  import opened Theorems
  import opened Definitions
  import opened Bundles
  import opened Sections
  import Components

  lemma ReachableRos(ros: Ros, s: System)
    requires Reachable(ros, s)
    ensures s.ros == ros
  {
    var ls: seq<Label> :| Runs(Init(ros), ls, s);
    RosStays(Init(ros), ls, s);
  }

  /** `names` is the bundle that `get_full_text` delivers, in its own or in the fallback format. */
  ghost predicate Delivered(files: Files, f: Format, name: string, names: seq<string>) {
    && Complete(files, f, name, names)
    && (f.IDL? ==> exists p: seq<string> :: FailsWith(files, MSG, name, p, NotFound))
  }

  lemma LookupDelivers(files: Files, topic: Topic, f: Format, names: seq<string>)
    requires Delivered(files, f, topic.datatypeName, names)
    ensures Components.LookupOf(files, topic) == Found(Bundle(files, f, names))
  {
    FullTextExact(files, topic.datatypeName);
  }

  /**
   On ROS 2, after an update every connected client's view of a new topic holds the bundle of the
   topic's type and everything it depends on, from which the client recovers each definition if
   and only if none of them has a line of 80 equals signs.
   */
  lemma SchemaReachesClients(s: System, l: Label, ls: seq<Label>, t: System, h: Handle,
                             files: Files, topic: Topic, f: Format, names: seq<string>)
    requires UpdateRun(Ros2, s, l, ls, t) && !t.collided && h in t.server.subs
    requires (topic, Components.LookupOf(files, topic)) in l.added
    requires Delivered(files, f, topic.datatypeName, names)
    ensures h in t.server.outbox && topic in t.bridge.advertised
    ensures var id := t.bridge.advertised[topic].id;
      var view := Replay(t.server.outbox[h]);
      && id in view && view[id].id == id
      && view[id].info == ChannelWithoutId(topic.name, "cdr", topic.datatypeName,
                                           Bundle(files, f, names))
      && (Unbundle(view[id].info.schema) == SectionsOf(files, f, names)
          <==> AllClean(files, f, names))
  {
    ReachableRos(Ros2, s);
    LookupDelivers(files, topic, f, names);
    UpdateReachesClients(Ros2, s, l, ls, t, h, (topic, Components.LookupOf(files, topic)));
    RoundTrip(files, f, topic.datatypeName, names);
  }

  /** On ROS 1 a new topic is announced with encoding ros1 and the definition that ROS has for it. */
  lemma Ros1TopicReachesClients(s: System, l: Label, ls: seq<Label>, t: System, h: Handle,
                                topic: Topic, lookup: SchemaLookup)
    requires UpdateRun(Ros1, s, l, ls, t) && !t.collided && h in t.server.subs
    requires (topic, lookup) in l.added
    ensures lookup.Failed? <==> topic !in t.bridge.advertised
    ensures !lookup.Failed? ==> h in t.server.outbox
    ensures !lookup.Failed? ==>
              var id, view := t.bridge.advertised[topic].id, Replay(t.server.outbox[h]);
              && id in view && view[id].id == id
              && view[id].info.topic == topic.name && view[id].info.schemaName == topic.datatypeName
              && view[id].info.encoding == "ros1"
              && view[id].info.schema == if lookup.Found? then lookup.schema else ""
  {
    ReachableRos(Ros1, s);
    if lookup.Failed? {
      NotAdvertised(Ros1, s, l, ls, t, (topic, lookup));
    } else {
      UpdateReachesClients(Ros1, s, l, ls, t, h, (topic, lookup));
    }
  }

  /** A topic without a definition is announced without one. */
  lemma UndescribedTopics(s: System, l: Label, ls: seq<Label>, t: System, h: Handle,
                          files: Files, topic: Topic)
    requires UpdateRun(Ros2, s, l, ls, t) && !t.collided && h in t.server.subs
    requires (topic, Components.LookupOf(files, topic)) in l.added
    requires FullText(files, topic.datatypeName) == Err(NotFound)
    ensures h in t.server.outbox && topic in t.bridge.advertised
    ensures var id, view := t.bridge.advertised[topic].id, Replay(t.server.outbox[h]);
      id in view && view[id].info == ChannelWithoutId(topic.name, "", topic.datatypeName, "")
  {
    ReachableRos(Ros2, s);
    UpdateReachesClients(Ros2, s, l, ls, t, h, (topic, Components.LookupOf(files, topic)));
  }

  /** A topic stays back if and only if another exception than a missing definition escapes. */
  lemma StaysBackIff(s: System, l: Label, ls: seq<Label>, t: System, files: Files, topic: Topic)
    requires UpdateRun(Ros2, s, l, ls, t) && !t.collided
    requires (topic, Components.LookupOf(files, topic)) in l.added
    ensures topic !in t.bridge.advertised <==> FullText(files, topic.datatypeName) == Err(Other)
  {
    ReachableRos(Ros2, s);
    var q := (topic, Components.LookupOf(files, topic));
    if NewChannel(Ros2, q.0, q.1).Some? {
      UpdateReconciles(Ros2, s, l, ls, t);
    } else {
      NotAdvertised(Ros2, s, l, ls, t, q);
    }
  }

  /** A lookup that fails keeps its topic from being advertised. */
  lemma NotAdvertised(ros: Ros, s: System, l: Label, ls: seq<Label>, t: System,
                      q: (Topic, SchemaLookup))
    requires UpdateRun(ros, s, l, ls, t) && !t.collided
    requires q in l.added && NewChannel(s.ros, q.0, q.1).None?
    ensures q.0 !in t.bridge.advertised
  {
    UpdateReconciles(ros, s, l, ls, t);
    OneLookup(l.added, q);
  }

  lemma OneLookup(added: seq<(Topic, SchemaLookup)>, q: (Topic, SchemaLookup))
    requires Distinct(TopicsOf(added)) && q in added
    ensures q.0 in Elements(TopicsOf(added))
    ensures forall r | r in added && r.0 == q.0 :: r == q
  {
    var i :| 0 <= i < |added| && added[i] == q;
    assert TopicsOf(added)[i] in Elements(TopicsOf(added));
    forall r | r in added && r.0 == q.0 ensures r == q {
      var j :| 0 <= j < |added| && added[j] == r;
      assert TopicsOf(added)[i] == TopicsOf(added)[j];
    }
  }
}
