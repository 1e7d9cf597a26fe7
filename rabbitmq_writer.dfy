/**
 * The message the RabbitMQ output writer publishes for one query: a JSON object
 * that groups the values of consecutive results with the same type name under
 * one named sub-object, and the topic routing key it is published with.
 *
 * The JSON generator is modelled by the calls made on it, as an append-only log
 * of generator events; the byte encoding of those events is not modelled.
 */
module RabbitMQ {

  /** One call on the JSON generator. */
  datatype Event =
    | StartObject                               // writeStartObject()
    | FieldStart(name: string)                  // writeObjectFieldStart(name)
    | StringField(key: string, value: string)   // writeStringField(key, value)
    | EndObject                                 // writeEndObject()

  /**
   * A query result as the writer sees it: its type-name value string and its
   * values as (key, value.toString()) pairs in the iteration order of its map.
   */
  datatype QueryResult = QueryResult(name: string, values: seq<(string, string)>)

  /** The JSON generator, reduced to the log of calls made on it. */
  class JsonGenerator {
    var events: seq<Event>

    constructor ()
      ensures events == []
    {
      events := [];
    }

    method WriteStartObject()
      modifies this`events
      ensures events == old(events) + [StartObject]
    {
      events := events + [StartObject];
    }

    method WriteObjectFieldStart(name: string)
      modifies this`events
      ensures events == old(events) + [FieldStart(name)]
    {
      events := events + [FieldStart(name)];
    }

    method WriteStringField(key: string, value: string)
      modifies this`events
      ensures events == old(events) + [StringField(key, value)]
    {
      events := events + [StringField(key, value)];
    }

    method WriteEndObject()
      modifies this`events
      ensures events == old(events) + [EndObject]
    {
      events := events + [EndObject];
    }
  }

  // ---------------------------------------------------------------------------
  // The events the writer produces, as functions of the results.

  /** One string field per value, in order. */
  function FieldEvents(values: seq<(string, string)>): (evs: seq<Event>)
    ensures |evs| == |values|
  {
    if values == [] then []
    else FieldEvents(values[..|values| - 1]) + [StringField(values[|values| - 1].0, values[|values| - 1].1)]
  }

  /** The events written before a result's fields, given the previous result's name. */
  function GroupEvents(prevName: string, name: string): seq<Event>
  {
    if prevName != name then
      (if prevName != "" then [EndObject] else []) + [FieldStart(name)]
    else []
  }

  /** The name the loop compares the next result with: the last name seen, initially "". */
  function PrevName(rs: seq<QueryResult>): string
  {
    if rs == [] then "" else rs[|rs| - 1].name
  }

  /** The events written inside the root object for the results `rs`. */
  function Body(rs: seq<QueryResult>): seq<Event>
  {
    if rs == [] then []
    else
      var init := rs[..|rs| - 1];
      var r := rs[|rs| - 1];
      Body(init) + GroupEvents(PrevName(init), r.name) + FieldEvents(r.values)
  }

  /** The whole message: the root object around the body. */
  function JsonMessage(rs: seq<QueryResult>): seq<Event>
  {
    [StartObject] + Body(rs) + [EndObject]
  }

  lemma {:induction false} BodyStep(rs: seq<QueryResult>, i: nat)
    requires i < |rs|
    ensures Body(rs[..i + 1]) == Body(rs[..i]) + GroupEvents(PrevName(rs[..i]), rs[i].name) + FieldEvents(rs[i].values)
    ensures PrevName(rs[..i + 1]) == rs[i].name
  {
    assert rs[..i + 1][..i] == rs[..i];
  }

  // Associativity of concatenation, stated once so that the proofs below can
  // regroup a log without the solver searching for the grouping itself.

  lemma {:induction false} Assoc3(a: seq<Event>, b: seq<Event>, c: seq<Event>)
    ensures a + b + c == a + (b + c)
  {
  }

  lemma {:induction false} Assoc4(a: seq<Event>, b: seq<Event>, c: seq<Event>, d: seq<Event>)
    ensures a + b + c + d == a + (b + c + d)
  {
  }

  lemma {:induction false} FieldEventsStep(values: seq<(string, string)>, j: nat)
    requires j < |values|
    ensures FieldEvents(values[..j + 1]) == FieldEvents(values[..j]) + [StringField(values[j].0, values[j].1)]
  {
    assert values[..j + 1][..j] == values[..j];
  }

  lemma {:induction false} LoopStep(rs: seq<QueryResult>, i: nat, before: seq<Event>, after: seq<Event>)
    requires i < |rs|
    requires before == [StartObject] + Body(rs[..i]) + GroupEvents(PrevName(rs[..i]), rs[i].name)
    requires after == before + FieldEvents(rs[i].values)
    ensures after == [StartObject] + Body(rs[..i + 1])
    ensures PrevName(rs[..i + 1]) == rs[i].name
  {
    BodyStep(rs, i);
    Assoc4([StartObject], Body(rs[..i]), GroupEvents(PrevName(rs[..i]), rs[i].name), FieldEvents(rs[i].values));
  }

  /** The writer's loop: it drives the generator over the results, tracking the previous name. */
  method CreateJsonMessage(results: seq<QueryResult>) returns (msg: seq<Event>)
    ensures msg == JsonMessage(results)
    ensures results == [] ==> msg == [StartObject, EndObject]
  {
    var generator := new JsonGenerator();
    generator.WriteStartObject();
    var prevName := "";
    for i := 0 to |results|
      invariant generator.events == [StartObject] + Body(results[..i])
      invariant prevName == PrevName(results[..i])
    {
      var values := results[i].values;
      var name := results[i].name;
      ghost var head := generator.events;
      if prevName != name {
        if prevName != "" {
          generator.WriteEndObject();
        }
        generator.WriteObjectFieldStart(name);
      }
      ghost var before := generator.events;
      assert before == head + GroupEvents(prevName, name) by {
        if prevName != name && prevName != "" {
          Assoc3(head, [EndObject], [FieldStart(name)]);
        }
      }
      for j := 0 to |values|
        invariant generator.events == before + FieldEvents(values[..j])
      {
        generator.WriteStringField(values[j].0, values[j].1);
        FieldEventsStep(values, j);
        Assoc3(before, FieldEvents(values[..j]), [StringField(values[j].0, values[j].1)]);
      }
      assert values[..|values|] == values;
      LoopStep(results, i, before, generator.events);
      prevName := name;
    }
    assert results[..|results|] == results;
    generator.WriteEndObject();
    msg := generator.events;
  }

  // ---------------------------------------------------------------------------
  // Views of an event log.

  /** The names of the FieldStart events, in order. */
  function FieldStartNames(evs: seq<Event>): seq<string>
  {
    if evs == [] then []
    else
      var e := evs[|evs| - 1];
      FieldStartNames(evs[..|evs| - 1]) + (if e.FieldStart? then [e.name] else [])
  }

  /** The (key, value) pairs of the StringField events, in order. */
  function StringFields(evs: seq<Event>): seq<(string, string)>
  {
    if evs == [] then []
    else
      var e := evs[|evs| - 1];
      StringFields(evs[..|evs| - 1]) + (if e.StringField? then [(e.key, e.value)] else [])
  }

  /** The net number of opens over the events: each start opens one, each end closes one. */
  function Depth(evs: seq<Event>): int
  {
    multiset(evs)[StartObject] + |FieldStartNames(evs)| - multiset(evs)[EndObject]
  }

  /** Every EndObject is directly followed by a FieldStart. */
  predicate ClosesOnlyBeforeFieldStart(evs: seq<Event>)
  {
    forall k :: 0 <= k < |evs| && evs[k] == EndObject ==> k + 1 < |evs| && evs[k + 1].FieldStart?
  }

  // ---------------------------------------------------------------------------
  // Reference definitions over the results, by position.

  /** The name result `i` is compared with: the name of result `i - 1`, or "" for the first. */
  function Previous(rs: seq<QueryResult>, i: nat): string
    requires i < |rs|
  {
    if i == 0 then "" else rs[i - 1].name
  }

  predicate NameChangesAt(rs: seq<QueryResult>, i: nat)
    requires i < |rs|
  {
    rs[i].name != Previous(rs, i)
  }

  /** The names of the results at which the name changes, in order. */
  function ChangedNames(rs: seq<QueryResult>): seq<string>
  {
    if rs == [] then []
    else ChangedNames(rs[..|rs| - 1]) + (if NameChangesAt(rs, |rs| - 1) then [rs[|rs| - 1].name] else [])
  }

  /** The number of name changes away from a non-empty name. */
  function ClosingCount(rs: seq<QueryResult>): nat
  {
    if rs == [] then 0
    else
      var i := |rs| - 1;
      ClosingCount(rs[..i]) + (if NameChangesAt(rs, i) && Previous(rs, i) != "" then 1 else 0)
  }

  /** The number of name changes away from "" (the first result counts as coming from ""). */
  function OpeningCount(rs: seq<QueryResult>): nat
  {
    if rs == [] then 0
    else
      var i := |rs| - 1;
      OpeningCount(rs[..i]) + (if NameChangesAt(rs, i) && Previous(rs, i) == "" then 1 else 0)
  }

  /** All values of all results, in result order and then value order. */
  function AllValues(rs: seq<QueryResult>): seq<(string, string)>
  {
    if rs == [] then [] else AllValues(rs[..|rs| - 1]) + rs[|rs| - 1].values
  }

  // ---------------------------------------------------------------------------
  // Lemmas about the pieces.

  lemma {:induction false} FieldEventsAt(values: seq<(string, string)>)
    ensures |FieldEvents(values)| == |values|
    ensures forall k :: 0 <= k < |values| ==> FieldEvents(values)[k] == StringField(values[k].0, values[k].1)
  {
    if values != [] {
      FieldEventsAt(values[..|values| - 1]);
    }
  }

  lemma {:induction false} FieldEventsAppend(a: seq<(string, string)>, b: seq<(string, string)>)
    ensures FieldEvents(a + b) == FieldEvents(a) + FieldEvents(b)
  {
    FieldEventsAt(a);
    FieldEventsAt(b);
    FieldEventsAt(a + b);
  }

  lemma {:induction false} FieldEventsProjections(values: seq<(string, string)>)
    ensures StringFields(FieldEvents(values)) == values
    ensures FieldStartNames(FieldEvents(values)) == []
    ensures StartObject !in FieldEvents(values) && EndObject !in FieldEvents(values)
  {
    FieldEventsStringFields(values);
    FieldEventsFieldStarts(values);
    FieldEventsAt(values);
  }

  lemma {:induction false} FieldEventsStringFields(values: seq<(string, string)>)
    ensures StringFields(FieldEvents(values)) == values
  {
    if values != [] {
      var init, v := values[..|values| - 1], values[|values| - 1];
      var evs := FieldEvents(values);
      assert evs == FieldEvents(init) + [StringField(v.0, v.1)];
      assert evs[..|evs| - 1] == FieldEvents(init);
      FieldEventsStringFields(init);
      assert values == init + [v];
    }
  }

  lemma {:induction false} FieldEventsFieldStarts(values: seq<(string, string)>)
    ensures FieldStartNames(FieldEvents(values)) == []
  {
    if values != [] {
      var init, v := values[..|values| - 1], values[|values| - 1];
      var evs := FieldEvents(values);
      assert evs == FieldEvents(init) + [StringField(v.0, v.1)];
      assert evs[..|evs| - 1] == FieldEvents(init);
      FieldEventsFieldStarts(init);
    }
  }


  lemma {:induction false} FieldStartNamesAppend(a: seq<Event>, b: seq<Event>)
    ensures FieldStartNames(a + b) == FieldStartNames(a) + FieldStartNames(b)
  {
    if b == [] {
      assert a + b == a;
    } else {
      var init := b[..|b| - 1];
      FieldStartNamesAppend(a, init);
      assert (a + b)[..|a + b| - 1] == a + init;
    }
  }

  lemma {:induction false} StringFieldsAppend(a: seq<Event>, b: seq<Event>)
    ensures StringFields(a + b) == StringFields(a) + StringFields(b)
  {
    if b == [] {
      assert a + b == a;
    } else {
      var init := b[..|b| - 1];
      StringFieldsAppend(a, init);
      assert (a + b)[..|a + b| - 1] == a + init;
    }
  }

  lemma {:induction false} DepthAppend(a: seq<Event>, b: seq<Event>)
    ensures Depth(a + b) == Depth(a) + Depth(b)
  {
    FieldStartNamesAppend(a, b);
  }

  lemma {:induction false} ClosesOnlyBeforeFieldStartAppend(a: seq<Event>, b: seq<Event>)
    requires ClosesOnlyBeforeFieldStart(a) && ClosesOnlyBeforeFieldStart(b)
    ensures ClosesOnlyBeforeFieldStart(a + b)
  {
    var ab := a + b;
    forall k | 0 <= k < |ab| && ab[k] == EndObject
      ensures k + 1 < |ab| && ab[k + 1].FieldStart?
    {
      if k < |a| {
        assert a[k] == EndObject;
      } else {
        assert b[k - |a|] == EndObject;
      }
    }
  }

  /** The events of a name change away from a non-empty name. */
  lemma {:induction false} ClosingOpenShape(name: string)
    ensures FieldStartNames([EndObject, FieldStart(name)]) == [name]
    ensures StringFields([EndObject, FieldStart(name)]) == []
  {
    var g := [EndObject, FieldStart(name)];
    assert g[..1] == [EndObject] && [EndObject][..0] == [];
  }

  /** The events of a name change away from "". */
  lemma {:induction false} OpenShape(name: string)
    ensures FieldStartNames([FieldStart(name)]) == [name]
    ensures StringFields([FieldStart(name)]) == []
  {
    assert [FieldStart(name)][..0] == [];
  }

  /** A result writes a FieldStart exactly when its name differs from the previous one. */
  lemma {:induction false} GroupFieldStarts(prevName: string, name: string)
    ensures FieldStartNames(GroupEvents(prevName, name)) == if prevName != name then [name] else []
    ensures StringFields(GroupEvents(prevName, name)) == []
  {
    if prevName != name && prevName != "" {
      ClosingOpenShape(name);
    } else if prevName != name {
      OpenShape(name);
    }
  }

  /** A result writes an EndObject exactly when the name changes away from a non-empty name, and only directly before the FieldStart. */
  lemma {:induction false} GroupClosings(prevName: string, name: string)
    ensures multiset(GroupEvents(prevName, name))[EndObject] == if prevName != name && prevName != "" then 1 else 0
    ensures StartObject !in GroupEvents(prevName, name)
    ensures ClosesOnlyBeforeFieldStart(GroupEvents(prevName, name))
  {
  }

  /** A result opens one more object exactly when its name changes away from "". */
  lemma {:induction false} GroupDepth(prevName: string, name: string)
    ensures Depth(GroupEvents(prevName, name)) == if prevName != name && prevName == "" then 1 else 0
  {
    GroupFieldStarts(prevName, name);
    GroupClosings(prevName, name);
  }

  lemma {:induction false} FieldEventsDepth(values: seq<(string, string)>)
    ensures Depth(FieldEvents(values)) == 0
    ensures multiset(FieldEvents(values))[EndObject] == 0
    ensures ClosesOnlyBeforeFieldStart(FieldEvents(values))
  {
    FieldEventsProjections(values);
  }

  // Each result appends its group events `g` and its field events to the body `b`.

  lemma {:induction false} FieldStartsStep(b: seq<Event>, g: seq<Event>, v: seq<(string, string)>)
    ensures FieldStartNames((b + g) + FieldEvents(v)) == FieldStartNames(b) + FieldStartNames(g)
  {
    FieldStartNamesAppend(b + g, FieldEvents(v));
    FieldStartNamesAppend(b, g);
    FieldEventsProjections(v);
  }

  lemma {:induction false} StringFieldsStep(b: seq<Event>, g: seq<Event>, v: seq<(string, string)>)
    requires StringFields(g) == []
    ensures StringFields((b + g) + FieldEvents(v)) == StringFields(b) + v
  {
    StringFieldsAppend(b + g, FieldEvents(v));
    StringFieldsAppend(b, g);
    FieldEventsProjections(v);
  }

  lemma {:induction false} DepthStep(b: seq<Event>, g: seq<Event>, v: seq<(string, string)>)
    ensures Depth((b + g) + FieldEvents(v)) == Depth(b) + Depth(g)
  {
    DepthAppend(b + g, FieldEvents(v));
    DepthAppend(b, g);
    FieldEventsDepth(v);
  }

  lemma {:induction false} ClosingsStep(b: seq<Event>, g: seq<Event>, v: seq<(string, string)>)
    requires ClosesOnlyBeforeFieldStart(b) && ClosesOnlyBeforeFieldStart(g)
    ensures multiset((b + g) + FieldEvents(v))[EndObject] == multiset(b)[EndObject] + multiset(g)[EndObject]
    ensures ClosesOnlyBeforeFieldStart((b + g) + FieldEvents(v))
  {
    FieldEventsDepth(v);
    ClosesOnlyBeforeFieldStartAppend(b, g);
    ClosesOnlyBeforeFieldStartAppend(b + g, FieldEvents(v));
  }

  /** The decomposition of the body at its last result, with the facts every view needs. */
  lemma {:induction false} BodyLast(rs: seq<QueryResult>)
    requires rs != []
    ensures var init := rs[..|rs| - 1];
            var r := rs[|rs| - 1];
            Body(rs) == (Body(init) + GroupEvents(Previous(rs, |rs| - 1), r.name)) + FieldEvents(r.values)
  {
    assert Previous(rs, |rs| - 1) == PrevName(rs[..|rs| - 1]);
  }

  // ---------------------------------------------------------------------------
  // Properties of the message.

  lemma {:induction false} BodyHasNoStartObject(rs: seq<QueryResult>)
    ensures StartObject !in Body(rs)
  {
    if rs != [] {
      var r := rs[|rs| - 1];
      BodyHasNoStartObject(rs[..|rs| - 1]);
      BodyLast(rs);
      GroupClosings(Previous(rs, |rs| - 1), r.name);
      FieldEventsProjections(r.values);
    }
  }

  /** The message is one root object: it starts with the only StartObject and ends with an EndObject. */
  lemma {:induction false} RootObjectFraming(rs: seq<QueryResult>)
    ensures var m := JsonMessage(rs);
            |m| >= 2 && m[0] == StartObject && m[|m| - 1] == EndObject &&
            multiset(m)[StartObject] == 1
    ensures rs == [] ==> JsonMessage(rs) == [StartObject, EndObject]
  {
    BodyHasNoStartObject(rs);
  }

  lemma {:induction false} BodyFieldStarts(rs: seq<QueryResult>)
    ensures FieldStartNames(Body(rs)) == ChangedNames(rs)
  {
    if rs != [] {
      var init, r := rs[..|rs| - 1], rs[|rs| - 1];
      var p := Previous(rs, |rs| - 1);
      BodyFieldStarts(init);
      BodyLast(rs);
      GroupFieldStarts(p, r.name);
      FieldStartsStep(Body(init), GroupEvents(p, r.name), r.values);
    }
  }

  /** A FieldStart is written for a result exactly when its name differs from the previous one (the first compared with ""). */
  lemma {:induction false} FieldStartsFollowNameChanges(rs: seq<QueryResult>)
    ensures FieldStartNames(JsonMessage(rs)) == ChangedNames(rs)
    ensures |FieldStartNames(JsonMessage(rs))| == ClosingCount(rs) + OpeningCount(rs)
  {
    NameChangeCounts(rs);
    BodyFieldStarts(rs);
    FieldStartNamesAppend([StartObject] + Body(rs), [EndObject]);
    FieldStartNamesAppend([StartObject], Body(rs));
  }

  lemma {:induction false} BodyClosings(rs: seq<QueryResult>)
    ensures multiset(Body(rs))[EndObject] == ClosingCount(rs)
    ensures ClosesOnlyBeforeFieldStart(Body(rs))
  {
    if rs != [] {
      var init, r := rs[..|rs| - 1], rs[|rs| - 1];
      var p := Previous(rs, |rs| - 1);
      BodyClosings(init);
      BodyLast(rs);
      GroupClosings(p, r.name);
      ClosingsStep(Body(init), GroupEvents(p, r.name), r.values);
    }
  }

  /**
   * Inside the root object an EndObject is written only directly before a
   * FieldStart, once for every name change away from a non-empty name; the
   * only other EndObject is the final one.
   */
  lemma {:induction false} ClosingBeforeNewGroup(rs: seq<QueryResult>)
    ensures multiset(JsonMessage(rs))[EndObject] == ClosingCount(rs) + 1
    ensures ClosesOnlyBeforeFieldStart(Body(rs))
  {
    BodyClosings(rs);
  }

  lemma {:induction false} BodyStringFields(rs: seq<QueryResult>)
    ensures StringFields(Body(rs)) == AllValues(rs)
  {
    if rs != [] {
      var init, r := rs[..|rs| - 1], rs[|rs| - 1];
      var p := Previous(rs, |rs| - 1);
      BodyStringFields(init);
      BodyLast(rs);
      GroupFieldStarts(p, r.name);
      StringFieldsStep(Body(init), GroupEvents(p, r.name), r.values);
    }
  }

  /** Every value of every result is written as exactly one string field, in order, and nothing else is. */
  lemma {:induction false} StringFieldsInOrder(rs: seq<QueryResult>)
    ensures StringFields(JsonMessage(rs)) == AllValues(rs)
  {
    BodyStringFields(rs);
    StringFieldsAppend([StartObject] + Body(rs), [EndObject]);
    StringFieldsAppend([StartObject], Body(rs));
  }

  /** Results that repeat the previous name add only their fields, to the group already open. */
  lemma {:induction false} SameNameJoinsGroup(rs: seq<QueryResult>, group: seq<QueryResult>)
    requires forall q :: q in group ==> q.name == PrevName(rs)
    ensures Body(rs + group) == Body(rs) + FieldEvents(AllValues(group))
  {
    if group == [] {
      assert rs + group == rs;
    } else {
      var init, r := group[..|group| - 1], group[|group| - 1];
      assert rs + group == (rs + init) + [r];
      assert (rs + init)[..|rs + init|] == rs + init;
      assert r in group;
      assert PrevName(rs + init) == r.name by {
        if init != [] {
          assert init[|init| - 1] in group;
        }
      }
      assert forall q :: q in init ==> q in group;
      SameNameJoinsGroup(rs, init);
      SameNameStep(rs, init, r);
    }
  }

  lemma {:induction false} SameNameStep(rs: seq<QueryResult>, init: seq<QueryResult>, r: QueryResult)
    requires PrevName(rs + init) == r.name
    requires Body(rs + init) == Body(rs) + FieldEvents(AllValues(init))
    ensures Body(rs + init + [r]) == Body(rs) + FieldEvents(AllValues(init + [r]))
  {
    SnocSameName(rs + init, r);
    FieldsJoin(Body(rs), AllValues(init), r.values);
    AllValuesSnoc(init, r);
  }

  /** A result with the previous name writes only its fields. */
  lemma {:induction false} SnocSameName(xs: seq<QueryResult>, r: QueryResult)
    requires PrevName(xs) == r.name
    ensures Body(xs + [r]) == Body(xs) + FieldEvents(r.values)
  {
    BodySnoc(xs, r);
  }

  lemma {:induction false} FieldsJoin(b: seq<Event>, v1: seq<(string, string)>, v2: seq<(string, string)>)
    ensures (b + FieldEvents(v1)) + FieldEvents(v2) == b + FieldEvents(v1 + v2)
  {
    FieldEventsAppend(v1, v2);
    Assoc3(b, FieldEvents(v1), FieldEvents(v2));
  }

  lemma {:induction false} AllValuesSnoc(init: seq<QueryResult>, r: QueryResult)
    ensures AllValues(init + [r]) == AllValues(init) + r.values
  {
    assert (init + [r])[..|init|] == init;
  }

  lemma {:induction false} BodySnoc(xs: seq<QueryResult>, r: QueryResult)
    ensures Body(xs + [r]) == Body(xs) + GroupEvents(PrevName(xs), r.name) + FieldEvents(r.values)
  {
    var all := xs + [r];
    assert all[..|all| - 1] == xs;
  }

  /** Results that all carry one non-empty name form a single group under one FieldStart. */
  lemma {:induction false} SingleGroup(rs: seq<QueryResult>, n: string)
    requires rs != [] && n != ""
    requires forall k :: 0 <= k < |rs| ==> rs[k].name == n
    ensures JsonMessage(rs) == [StartObject, FieldStart(n)] + FieldEvents(AllValues(rs)) + [EndObject]
  {
    SingleGroupBody(rs, n);
    var x := FieldEvents(AllValues(rs));
    assert [StartObject] + [FieldStart(n)] == [StartObject, FieldStart(n)];
    Assoc3([StartObject], [FieldStart(n)], x);
  }

  lemma {:induction false} SingleGroupBody(rs: seq<QueryResult>, n: string)
    requires rs != [] && n != ""
    requires forall k :: 0 <= k < |rs| ==> rs[k].name == n
    ensures Body(rs) == [FieldStart(n)] + FieldEvents(AllValues(rs))
  {
    var first, rest := rs[..1], rs[1..];
    FirstResult(first, n);
    assert rs == first + rest;
    assert forall q :: q in rest ==> q.name == PrevName(first);
    SameNameJoinsGroup(first, rest);
    AllValuesAppend(first, rest);
    FieldEventsAppend(first[0].values, AllValues(rest));
    Assoc3([FieldStart(n)], FieldEvents(first[0].values), FieldEvents(AllValues(rest)));
  }

  /** The first result opens its group from "". */
  lemma {:induction false} FirstResult(first: seq<QueryResult>, n: string)
    requires |first| == 1 && first[0].name == n && n != ""
    ensures Body(first) == [FieldStart(n)] + FieldEvents(first[0].values)
    ensures AllValues(first) == first[0].values
    ensures PrevName(first) == n
  {
    assert first[..0] == [];
  }

  lemma {:induction false} AllValuesAppend(a: seq<QueryResult>, b: seq<QueryResult>)
    ensures AllValues(a + b) == AllValues(a) + AllValues(b)
  {
    if b == [] {
      assert a + b == a;
    } else {
      var init := b[..|b| - 1];
      AllValuesAppend(a, init);
      assert (a + b)[..|a + b| - 1] == a + init;
    }
  }

  /** Leading results named "" write their fields straight into the root object, without a FieldStart. */
  lemma {:induction false} LeadingEmptyNames(rs: seq<QueryResult>, k: nat)
    requires k <= |rs|
    requires forall i :: 0 <= i < k ==> rs[i].name == ""
    ensures Body(rs[..k]) == FieldEvents(AllValues(rs[..k]))
    ensures FieldStartNames(Body(rs[..k])) == []
    ensures FieldEvents(AllValues(rs[..k])) <= Body(rs)
  {
    SameNameJoinsGroup([], rs[..k]);
    assert [] + rs[..k] == rs[..k];
    FieldEventsProjections(AllValues(rs[..k]));
    BodyPrefix(rs, k);
  }

  lemma {:induction false} BodyPrefix(rs: seq<QueryResult>, k: nat)
    requires k <= |rs|
    ensures Body(rs[..k]) <= Body(rs)
  {
    if k < |rs| {
      BodyPrefix(rs[..|rs| - 1], k);
      assert rs[..|rs| - 1][..k] == rs[..k];
    } else {
      assert rs[..k] == rs;
    }
  }

  lemma {:induction false} BodyDepth(rs: seq<QueryResult>)
    ensures Depth(Body(rs)) == OpeningCount(rs)
  {
    if rs != [] {
      var init, r := rs[..|rs| - 1], rs[|rs| - 1];
      var p := Previous(rs, |rs| - 1);
      BodyDepth(init);
      BodyLast(rs);
      GroupDepth(p, r.name);
      DepthStep(Body(init), GroupEvents(p, r.name), r.values);
    }
  }

  /**
   * The net open count when the generator is closed: one for every name
   * change away from "".
   */
  lemma {:induction false} OpenObjectsAtClose(rs: seq<QueryResult>)
    ensures Depth(JsonMessage(rs)) == OpeningCount(rs)
  {
    BodyDepth(rs);
    DepthAppend([StartObject] + Body(rs), [EndObject]);
    DepthAppend([StartObject], Body(rs));
  }

  lemma {:induction false} OpeningCountNonEmptyNames(rs: seq<QueryResult>)
    requires rs != []
    requires forall k :: 0 <= k < |rs| ==> rs[k].name != ""
    ensures OpeningCount(rs) == 1
  {
    if |rs| > 1 {
      OpeningCountNonEmptyNames(rs[..|rs| - 1]);
    }
  }

  /** Every name change is a change away from "" or away from a non-empty name. */
  lemma {:induction false} NameChangeCounts(rs: seq<QueryResult>)
    ensures |ChangedNames(rs)| == ClosingCount(rs) + OpeningCount(rs)
  {
    if rs != [] {
      NameChangeCounts(rs[..|rs| - 1]);
    }
  }

  /** Without any name change every result is named "". */
  lemma {:induction false} NoChangeMeansEmptyNames(rs: seq<QueryResult>)
    requires ChangedNames(rs) == []
    ensures forall k :: 0 <= k < |rs| ==> rs[k].name == ""
  {
    if rs != [] {
      var n := |rs| - 1;
      var init := rs[..n];
      assert ChangedNames(init) == [] && !NameChangesAt(rs, n);
      NoChangeMeansEmptyNames(init);
      assert rs[n].name == "" by {
        if n > 0 {
          assert rs[n - 1] == init[n - 1];
        }
      }
      forall k | 0 <= k < n
        ensures rs[k].name == ""
      {
        assert rs[k] == init[k];
      }
    }
  }

  /** Once any named group is opened, some group was opened from "". */
  lemma {:induction false} AnyChangeOpens(rs: seq<QueryResult>)
    ensures ChangedNames(rs) != [] ==> OpeningCount(rs) >= 1
  {
    if rs != [] && ChangedNames(rs) != [] {
      var init := rs[..|rs| - 1];
      if ChangedNames(init) != [] {
        AnyChangeOpens(init);
      } else {
        NoChangeMeansEmptyNames(init);
        if |rs| > 1 {
          assert rs[|rs| - 2] == init[|rs| - 2];
        }
      }
    }
  }

  /**
   * The net open count after the final EndObject is zero exactly when no
   * group was ever opened; otherwise it is at least one.
   */
  lemma {:induction false} RootClosedIffNoGroup(rs: seq<QueryResult>)
    ensures Depth(JsonMessage(rs)) == 0 <==> ChangedNames(rs) == []
    ensures ChangedNames(rs) != [] ==> Depth(JsonMessage(rs)) >= 1
  {
    OpenObjectsAtClose(rs);
    NameChangeCounts(rs);
    AnyChangeOpens(rs);
  }

  /** When no name is "", the net open count after the final EndObject is one. */
  lemma {:induction false} RootLeftOpen(rs: seq<QueryResult>)
    requires rs != []
    requires forall k :: 0 <= k < |rs| ==> rs[k].name != ""
    ensures Depth(JsonMessage(rs)) == 1
  {
    OpenObjectsAtClose(rs);
    OpeningCountNonEmptyNames(rs);
  }

  // ---------------------------------------------------------------------------
  // The topic routing key.

  /** The routing key of a message: the server alias and the query's result alias, joined by a dot. */
  function RoutingKey(serverAlias: string, resultAlias: string): (rk: string)
    ensures |rk| == |serverAlias| + 1 + |resultAlias|
    ensures rk[..|serverAlias|] == serverAlias && rk[|serverAlias|] == '.'
    ensures rk[|serverAlias| + 1..] == resultAlias
  {
    serverAlias + "." + resultAlias
  }

  /** The routing key determines both aliases when the server alias has no dot. */
  lemma {:induction false} RoutingKeyInjective(s1: string, r1: string, s2: string, r2: string)
    requires '.' !in s1 && '.' !in s2
    ensures RoutingKey(s1, r1) == RoutingKey(s2, r2) <==> s1 == s2 && r1 == r2
  {
    if RoutingKey(s1, r1) == RoutingKey(s2, r2) {
      var rk := RoutingKey(s1, r1);
      assert s1 == rk[..|s1|];
    }
  }

  /** A dot in the server alias makes keys ambiguous. */
  lemma {:induction false} RoutingKeyAmbiguous()
    ensures RoutingKey("a.b", "c") == RoutingKey("a", "b.c")
  {
  }
}
