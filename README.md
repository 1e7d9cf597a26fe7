# jmxtrans: coordination-tree paths and the RabbitMQ JSON message

This project models two small pieces of jmxtrans and proves properties of them.

- **`Zookeeper` (zookeeper_config.dfy)** models the ZooKeeper configuration of a cluster worker:
  - the six mutable settings, with a constructor and setters;
  - the seven path getters. They build the canonical nodes of the coordination tree by joining the heartbeat root or the config root, the separator `/`, an alias and one of the node names `owner`, `affinity`, `config` and `request`.

  The object is a `class` whose setters change one field each. The getters are functions that read the current fields, so they change nothing. The lemmas relate the paths through a positional view of a path: the last separator splits it into a parent path and a node name. The lemmas prove:
  - prefix and extension relations;
  - that the child paths of one alias are distinct;
  - that each getter taking an alias or label (the JVM path, the four child paths and the affinity-group path) is injective in it;
  - the properties that need a separator-free alias, which state it as a hypothesis. A concrete collision shows that the JVM-path property fails without it.

- **`RabbitMQ` (rabbitmq_writer.dfy)** models the message the RabbitMQ output writer builds for one query, and its topic routing key.
  - The JSON generator is a `class` that holds the log of calls made on it: `StartObject`, `FieldStart(name)`, `StringField(key, value)` and `EndObject`.
  - The writer's loop is a method that drives the generator over the query results, tracking the previous result's type name. It is proved equal to a specification function of the results.
  - The properties of the message are proved about that function. An independent, position-based reference definition ("the name of result `i` differs from the name of result `i - 1`, or from `""` for the first") states:
    - which `FieldStart` and `EndObject` events appear;
    - which string fields appear, and in what order;
    - the net number of objects left open (opens minus closes).

The code performs no alias validation. A path getter applied to an alias that contains `/` or is empty simply concatenates it, and no error is raised. The model follows the code. Where a property needs a separator-free alias, the model states it as a hypothesis: a precondition of the lemma, or the premise of an implication in a getter's contract. `SeparatorInAliasCollides` shows the collision the code permits.

The one `writeEndObject` after the loop closes the innermost open object. Counting opens minus closes over the whole message: when any group was opened (any `FieldStart` written), at least one open is left unmatched; the count reaches zero exactly when no `FieldStart` was ever written. The model counts rather than tracks nesting, so it does not state which object stays open. `RootClosedIffNoGroup` proves this for every list of results, and `RootLeftOpen` gives the exact count, one open object, when no result is named "". The generator's auto-close on `close()` is what completes the JSON text, and that is not modelled.

## Model

| member | source | states |
|---|---|---|
| Zookeeper.ChildNode.Name | jmxtrans-cluster/src/main/java/com/googlecode/jmxtrans/cluster/zookeeper/ZookeeperConfig.java:14-17 | each of the four child-node names is non-empty and contains no separator |
| Zookeeper.NodeNamesDistinct | jmxtrans-cluster/src/main/java/com/googlecode/jmxtrans/cluster/zookeeper/ZookeeperConfig.java:14-17 | two child-node kinds have the same name if and only if they are the same kind |
| Zookeeper.ZookeeperConfig.constructor | jmxtrans-cluster/src/main/java/com/googlecode/jmxtrans/cluster/zookeeper/ZookeeperConfig.java:26-38 | each of the six arguments is stored unchanged in the field of the same name |
| Zookeeper.ZookeeperConfig.SetConnectionString | jmxtrans-cluster/src/main/java/com/googlecode/jmxtrans/cluster/zookeeper/ZookeeperConfig.java:19 | only `connectionString` changes, to the new value; the worker path and every JVM path are unchanged |
| Zookeeper.ZookeeperConfig.SetWorkerAlias | jmxtrans-cluster/src/main/java/com/googlecode/jmxtrans/cluster/zookeeper/ZookeeperConfig.java:20 | only `workerAlias` changes; the worker path becomes heartbeat root + "/" + new alias; JVM and affinity-group paths are unchanged |
| Zookeeper.ZookeeperConfig.SetHeartBeatPath | jmxtrans-cluster/src/main/java/com/googlecode/jmxtrans/cluster/zookeeper/ZookeeperConfig.java:21 | only `heartBeatPath` changes; the worker path and every affinity-group path move under the new root; JVM paths are unchanged |
| Zookeeper.ZookeeperConfig.SetConfigPath | jmxtrans-cluster/src/main/java/com/googlecode/jmxtrans/cluster/zookeeper/ZookeeperConfig.java:22 | only `configPath` changes; every JVM path and every child path move under the new root; the worker path is unchanged |
| Zookeeper.ZookeeperConfig.SetConnectTimeout | jmxtrans-cluster/src/main/java/com/googlecode/jmxtrans/cluster/zookeeper/ZookeeperConfig.java:23 | only `connectTimeout` changes, to the new value; no path changes |
| Zookeeper.ZookeeperConfig.SetConnectRetry | jmxtrans-cluster/src/main/java/com/googlecode/jmxtrans/cluster/zookeeper/ZookeeperConfig.java:24 | only `connectRetry` changes, to the new value; no path changes |
| Zookeeper.ZookeeperConfig.WorkerNodePath | jmxtrans-cluster/src/main/java/com/googlecode/jmxtrans/cluster/zookeeper/ZookeeperConfig.java:40-42 | when the worker alias has no separator, the worker node's parent path is the heartbeat root and its node name is the worker alias |
| Zookeeper.ZookeeperConfig.JvmPath | jmxtrans-cluster/src/main/java/com/googlecode/jmxtrans/cluster/zookeeper/ZookeeperConfig.java:44-46 | when the JVM alias has no separator, the JVM node's parent path is the config root and its node name is the alias |
| Zookeeper.ZookeeperConfig.OwnerNodePath | jmxtrans-cluster/src/main/java/com/googlecode/jmxtrans/cluster/zookeeper/ZookeeperConfig.java:48-50 | the owner path is the JVM path + "/" + `owner`: its parent path is the JVM path and its node name is `owner`, for every alias |
| Zookeeper.ZookeeperConfig.JvmAffinityNodePath | jmxtrans-cluster/src/main/java/com/googlecode/jmxtrans/cluster/zookeeper/ZookeeperConfig.java:52-54 | the affinity path is the JVM path + "/" + `affinity`: its parent path is the JVM path and its node name is `affinity`, for every alias |
| Zookeeper.ZookeeperConfig.ConfigNodePath | jmxtrans-cluster/src/main/java/com/googlecode/jmxtrans/cluster/zookeeper/ZookeeperConfig.java:56-58 | the config path is the JVM path + "/" + `config`: its parent path is the JVM path and its node name is `config`, for every alias |
| Zookeeper.ZookeeperConfig.RequestNodePath | jmxtrans-cluster/src/main/java/com/googlecode/jmxtrans/cluster/zookeeper/ZookeeperConfig.java:60-62 | the request path is the JVM path + "/" + `request`: its parent path is the JVM path and its node name is `request`, for every alias |
| Zookeeper.ZookeeperConfig.AffinityWorkerPath | jmxtrans-cluster/src/main/java/com/googlecode/jmxtrans/cluster/zookeeper/ZookeeperConfig.java:64-66 | when the affinity label has no separator, the affinity-group node's parent path is the heartbeat root and its node name is the label |
| Zookeeper.ZookeeperConfig.ChildPath | jmxtrans-cluster/src/main/java/com/googlecode/jmxtrans/cluster/zookeeper/ZookeeperConfig.java:48-62 | the getter of each child kind gives the JVM path + "/" + that kind's name, whose parent path is the JVM path and whose node name is the kind's name |
| Zookeeper.ChildPathExtendsJvmPath | jmxtrans-cluster/src/main/java/com/googlecode/jmxtrans/cluster/zookeeper/ZookeeperConfig.java:44-62 | for every alias, each owner/affinity/config/request path is the JVM path + "/" + the node name, so the JVM path is a strict prefix of it; its parent path is the JVM path and its node name is the child's name |
| Zookeeper.ChildPathsDistinct | jmxtrans-cluster/src/main/java/com/googlecode/jmxtrans/cluster/zookeeper/ZookeeperConfig.java:48-62 | for one alias, two child paths are equal if and only if they are of the same kind |
| Zookeeper.JvmPathInjective | jmxtrans-cluster/src/main/java/com/googlecode/jmxtrans/cluster/zookeeper/ZookeeperConfig.java:44-46 | two JVM paths are equal if and only if the aliases are equal |
| Zookeeper.ChildPathInjective | jmxtrans-cluster/src/main/java/com/googlecode/jmxtrans/cluster/zookeeper/ZookeeperConfig.java:48-62 | two child paths of one kind are equal if and only if the aliases are equal |
| Zookeeper.JvmPathIsNoChildPath | jmxtrans-cluster/src/main/java/com/googlecode/jmxtrans/cluster/zookeeper/ZookeeperConfig.java:44-62 | when the JVM alias is separator-free, its JVM path equals no child path of any alias |
| Zookeeper.SeparatorInAliasCollides | jmxtrans-cluster/src/main/java/com/googlecode/jmxtrans/cluster/zookeeper/ZookeeperConfig.java:44-50 | without separator-freeness the JVM path of "x/owner" is the owner path of "x" |
| Zookeeper.AffinityWorkerPathIsWorkerPath | jmxtrans-cluster/src/main/java/com/googlecode/jmxtrans/cluster/zookeeper/ZookeeperConfig.java:40-66 | the affinity-group path of `x` equals the worker path if and only if `x` is the worker alias: both live in the heartbeat namespace |
| Zookeeper.AffinityWorkerPathInjective | jmxtrans-cluster/src/main/java/com/googlecode/jmxtrans/cluster/zookeeper/ZookeeperConfig.java:64-66 | two affinity-group paths are equal if and only if the labels are equal |
| RabbitMQ.JsonGenerator.constructor | jmxtrans-output/jmxtrans-output-rabbitmq/src/main/java/com/googlecode/jmxtrans/model/output/RabbitMQWriter.java:113 | a new generator has made no calls |
| RabbitMQ.JsonGenerator.WriteStartObject | jmxtrans-output/jmxtrans-output-rabbitmq/src/main/java/com/googlecode/jmxtrans/model/output/RabbitMQWriter.java:116 | appends exactly one `StartObject` to the log |
| RabbitMQ.JsonGenerator.WriteObjectFieldStart | jmxtrans-output/jmxtrans-output-rabbitmq/src/main/java/com/googlecode/jmxtrans/model/output/RabbitMQWriter.java:125 | appends exactly one `FieldStart(name)` to the log |
| RabbitMQ.JsonGenerator.WriteStringField | jmxtrans-output/jmxtrans-output-rabbitmq/src/main/java/com/googlecode/jmxtrans/model/output/RabbitMQWriter.java:129 | appends exactly one `StringField(key, value)` to the log |
| RabbitMQ.JsonGenerator.WriteEndObject | jmxtrans-output/jmxtrans-output-rabbitmq/src/main/java/com/googlecode/jmxtrans/model/output/RabbitMQWriter.java:123 | appends exactly one `EndObject` to the log |
| RabbitMQ.CreateJsonMessage | jmxtrans-output/jmxtrans-output-rabbitmq/src/main/java/com/googlecode/jmxtrans/model/output/RabbitMQWriter.java:110-138 | the loop writes exactly `JsonMessage(results)`; for no results that is `[StartObject, EndObject]` |
| RabbitMQ.LoopStep | jmxtrans-output/jmxtrans-output-rabbitmq/src/main/java/com/googlecode/jmxtrans/model/output/RabbitMQWriter.java:118-132 | after result `i`, the log is the root start followed by the body of the first `i + 1` results, and the previous name is result `i`'s name |
| RabbitMQ.RootObjectFraming | jmxtrans-output/jmxtrans-output-rabbitmq/src/main/java/com/googlecode/jmxtrans/model/output/RabbitMQWriter.java:116-134 | the message starts with a `StartObject`, which is its only one, and ends with an `EndObject`; for no results the message is `[StartObject, EndObject]` |
| RabbitMQ.GroupFieldStarts | jmxtrans-output/jmxtrans-output-rabbitmq/src/main/java/com/googlecode/jmxtrans/model/output/RabbitMQWriter.java:121-126 | a result writes a `FieldStart` of its name if and only if its name differs from the previous name, and writes no string field before its values |
| RabbitMQ.GroupClosings | jmxtrans-output/jmxtrans-output-rabbitmq/src/main/java/com/googlecode/jmxtrans/model/output/RabbitMQWriter.java:121-124 | a result writes an `EndObject` if and only if its name differs from a non-empty previous name, and only directly before a `FieldStart` |
| RabbitMQ.FieldStartsFollowNameChanges | jmxtrans-output/jmxtrans-output-rabbitmq/src/main/java/com/googlecode/jmxtrans/model/output/RabbitMQWriter.java:117-132 | the names of the message's `FieldStart` events are exactly the names of the results whose name differs from the previous result's name (the first result compared with ""), in order; their number is the number of changes away from "" plus the number of changes away from a non-empty name |
| RabbitMQ.NameChangeCounts | jmxtrans-output/jmxtrans-output-rabbitmq/src/main/java/com/googlecode/jmxtrans/model/output/RabbitMQWriter.java:121-126 | every name change is either a change away from "" (which opens a group from the current object) or a change away from a non-empty name (which first closes the open group) |
| RabbitMQ.ClosingBeforeNewGroup | jmxtrans-output/jmxtrans-output-rabbitmq/src/main/java/com/googlecode/jmxtrans/model/output/RabbitMQWriter.java:121-134 | the message holds one `EndObject` per name change away from a non-empty name, plus the final one; inside the root every `EndObject` is directly followed by a `FieldStart` |
| RabbitMQ.StringFieldsInOrder | jmxtrans-output/jmxtrans-output-rabbitmq/src/main/java/com/googlecode/jmxtrans/model/output/RabbitMQWriter.java:118-130 | the message's string fields are exactly the values of all results, in result order and then value order |
| RabbitMQ.SameNameJoinsGroup | jmxtrans-output/jmxtrans-output-rabbitmq/src/main/java/com/googlecode/jmxtrans/model/output/RabbitMQWriter.java:121-132 | results that repeat the previous name append only their string fields, to the group already open |
| RabbitMQ.SingleGroup | jmxtrans-output/jmxtrans-output-rabbitmq/src/main/java/com/googlecode/jmxtrans/model/output/RabbitMQWriter.java:116-134 | results that all carry one non-empty name give the root start, one `FieldStart` of that name, all their fields and one `EndObject` |
| RabbitMQ.LeadingEmptyNames | jmxtrans-output/jmxtrans-output-rabbitmq/src/main/java/com/googlecode/jmxtrans/model/output/RabbitMQWriter.java:117-126 | leading results named "" write only their fields, with no `FieldStart`, and those fields open the body of the whole message |
| RabbitMQ.OpenObjectsAtClose | jmxtrans-output/jmxtrans-output-rabbitmq/src/main/java/com/googlecode/jmxtrans/model/output/RabbitMQWriter.java:116-134 | the net open count of the message (starts and field starts minus ends) is the number of name changes away from "" |
| RabbitMQ.RootLeftOpen | jmxtrans-output/jmxtrans-output-rabbitmq/src/main/java/com/googlecode/jmxtrans/model/output/RabbitMQWriter.java:121-134 | when there are results and none is named "", the net open count after the final `EndObject` is one |
| RabbitMQ.RootClosedIffNoGroup | jmxtrans-output/jmxtrans-output-rabbitmq/src/main/java/com/googlecode/jmxtrans/model/output/RabbitMQWriter.java:116-134 | the net open count after the final `EndObject` is zero if and only if no name change (so no `FieldStart`) occurred; once any group is opened it is at least one |
| RabbitMQ.RoutingKey | jmxtrans-output/jmxtrans-output-rabbitmq/src/main/java/com/googlecode/jmxtrans/model/output/RabbitMQWriter.java:99 | the routing key is the server alias, then a dot at the position just after it, then the result alias |
| RabbitMQ.RoutingKeyInjective | jmxtrans-output/jmxtrans-output-rabbitmq/src/main/java/com/googlecode/jmxtrans/model/output/RabbitMQWriter.java:99 | for dot-free server aliases, two routing keys are equal if and only if both aliases are equal |
| RabbitMQ.RoutingKeyAmbiguous | jmxtrans-output/jmxtrans-output-rabbitmq/src/main/java/com/googlecode/jmxtrans/model/output/RabbitMQWriter.java:99 | with a dot in the server alias, different alias pairs give the same key |

## Left out

- Network I/O: `createChannel` and `basicPublish` go through the AMQP client library. The routing key is modelled; publishing is not.
- The byte encoding of the JSON text is not modelled, and neither is its conversion to a UTF-8 string. The generator is modelled only by the calls made on it. Its auto-closing of open objects on `close()` is not modelled.
- Inputs from code that is not part of this model are taken as given strings in each `QueryResult` or routing-key argument:
  - the type name from `makeTypeNameValueString`;
  - each value's `toString`;
  - the server alias and the result alias;
- The values of a result are taken in the iteration order of its map. That order is the input sequence.
- Java `null` strings are not modelled: every string is a value. A null alias would be concatenated as "null", and a null value would throw.
- The root prefix (`firstNonNull` in the constructor) is never read by the message or the routing key, so it is not modelled.
- Logging, the empty loop in `internalWrite`, the no-op `validateSetup` and the base-class constructor have no effect on the message and are not modelled.
- `connectionString`, `connectTimeout` and `connectRetry` are stored only. The model keeps them as fields but states no property about them beyond their setters.
- ZooKeeper sessions, watches, ephemeral nodes, ownership election and concurrency do not appear in the modelled code and are not modelled.
