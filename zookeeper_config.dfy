/**
 * The ZooKeeper part of the cluster configuration: the connection settings of
 * one worker and the canonical node paths of the coordination tree, which are
 * built by concatenating the configured roots, the path separator and aliases.
 */
module Zookeeper {

  /** Names of the four child nodes under every JVM node. */
  const OwnerNodeName: string := "owner"
  const AffinityNodeName: string := "affinity"
  const ConfigNodeName: string := "config"
  const RequestNodeName: string := "request"

  /** The separator of ZooKeeper paths. */
  const Separator: char := '/'

  /** A Java `int`. */
  newtype Int32 = x: int | -0x8000_0000 <= x < 0x8000_0000

  /** The four kinds of child node of a JVM node, each with its node name. */
  datatype ChildNode = Owner | Affinity | Config | Request
  {
    function Name(): (n: string)
      ensures Separator !in n && n != []
    {
      match this
      case Owner => OwnerNodeName
      case Affinity => AffinityNodeName
      case Config => ConfigNodeName
      case Request => RequestNodeName
    }
  }

  class ZookeeperConfig {
    var connectionString: string
    var workerAlias: string
    var heartBeatPath: string
    var configPath: string
    var connectTimeout: Int32
    var connectRetry: Int32

    constructor (workerAlias: string, connectionString: string, heartBeatPath: string,
                 configPath: string, connectTimeout: Int32, connectRetry: Int32)
      ensures this.workerAlias == workerAlias
      ensures this.connectionString == connectionString
      ensures this.heartBeatPath == heartBeatPath
      ensures this.configPath == configPath
      ensures this.connectTimeout == connectTimeout
      ensures this.connectRetry == connectRetry
    {
      this.workerAlias := workerAlias;
      this.connectionString := connectionString;
      this.heartBeatPath := heartBeatPath;
      this.configPath := configPath;
      this.connectTimeout := connectTimeout;
      this.connectRetry := connectRetry;
    }

    // Setters: each changes only its own field (the modifies clause names that
    // field alone) and the path getters follow the new value.

    method SetConnectionString(v: string)
      modifies this`connectionString
      ensures connectionString == v
      ensures WorkerNodePath() == old(WorkerNodePath())
      ensures forall a :: JvmPath(a) == old(JvmPath(a))
    {
      connectionString := v;
    }

    method SetWorkerAlias(v: string)
      modifies this`workerAlias
      ensures workerAlias == v
      ensures WorkerNodePath() == heartBeatPath + "/" + v
      ensures forall a :: JvmPath(a) == old(JvmPath(a))
      ensures forall a :: AffinityWorkerPath(a) == old(AffinityWorkerPath(a))
    {
      workerAlias := v;
    }

    method SetHeartBeatPath(v: string)
      modifies this`heartBeatPath
      ensures heartBeatPath == v
      ensures WorkerNodePath() == v + "/" + workerAlias
      ensures forall a :: AffinityWorkerPath(a) == v + "/" + a
      ensures forall a :: JvmPath(a) == old(JvmPath(a))
    {
      heartBeatPath := v;
    }

    method SetConfigPath(v: string)
      modifies this`configPath
      ensures configPath == v
      ensures forall a :: JvmPath(a) == v + "/" + a
      ensures forall n: ChildNode, a :: ChildPath(n, a) == v + "/" + a + "/" + n.Name()
      ensures WorkerNodePath() == old(WorkerNodePath())
    {
      configPath := v;
    }

    method SetConnectTimeout(v: Int32)
      modifies this`connectTimeout
      ensures connectTimeout == v
      ensures WorkerNodePath() == old(WorkerNodePath())
      ensures forall a :: JvmPath(a) == old(JvmPath(a))
    {
      connectTimeout := v;
    }

    method SetConnectRetry(v: Int32)
      modifies this`connectRetry
      ensures connectRetry == v
      ensures WorkerNodePath() == old(WorkerNodePath())
      ensures forall a :: JvmPath(a) == old(JvmPath(a))
    {
      connectRetry := v;
    }

    // Path getters. They are functions of the current fields and change nothing.

    /** The worker's heartbeat node: a child of the heartbeat root named by the worker alias. */
    function WorkerNodePath(): (p: string)
      reads this
      ensures Separator !in workerAlias ==> ParentPath(p) == heartBeatPath && NodeName(p) == workerAlias
    {
      JoinSplitsIfFree(heartBeatPath, workerAlias);
      heartBeatPath + "/" + workerAlias
    }

    /** The root node of a JVM: a child of the config root named by the JVM alias. */
    function JvmPath(jvmAlias: string): (p: string)
      reads this
      ensures Separator !in jvmAlias ==> ParentPath(p) == configPath && NodeName(p) == jvmAlias
    {
      JoinSplitsIfFree(configPath, jvmAlias);
      configPath + "/" + jvmAlias
    }

    function OwnerNodePath(jvmAlias: string): (p: string)
      reads this
      ensures p == JvmPath(jvmAlias) + "/" + OwnerNodeName
      ensures ParentPath(p) == JvmPath(jvmAlias) && NodeName(p) == OwnerNodeName
    {
      JoinSplits(JvmPath(jvmAlias), Owner.Name());
      configPath + "/" + jvmAlias + "/" + OwnerNodeName
    }

    function JvmAffinityNodePath(jvmAlias: string): (p: string)
      reads this
      ensures p == JvmPath(jvmAlias) + "/" + AffinityNodeName
      ensures ParentPath(p) == JvmPath(jvmAlias) && NodeName(p) == AffinityNodeName
    {
      JoinSplits(JvmPath(jvmAlias), Affinity.Name());
      configPath + "/" + jvmAlias + "/" + AffinityNodeName
    }

    function ConfigNodePath(jvmAlias: string): (p: string)
      reads this
      ensures p == JvmPath(jvmAlias) + "/" + ConfigNodeName
      ensures ParentPath(p) == JvmPath(jvmAlias) && NodeName(p) == ConfigNodeName
    {
      JoinSplits(JvmPath(jvmAlias), Config.Name());
      configPath + "/" + jvmAlias + "/" + ConfigNodeName
    }

    function RequestNodePath(jvmAlias: string): (p: string)
      reads this
      ensures p == JvmPath(jvmAlias) + "/" + RequestNodeName
      ensures ParentPath(p) == JvmPath(jvmAlias) && NodeName(p) == RequestNodeName
    {
      JoinSplits(JvmPath(jvmAlias), Request.Name());
      configPath + "/" + jvmAlias + "/" + RequestNodeName
    }

    /** The node of an affinity group: a child of the heartbeat root, next to the worker nodes. */
    function AffinityWorkerPath(affinity: string): (p: string)
      reads this
      ensures Separator !in affinity ==> ParentPath(p) == heartBeatPath && NodeName(p) == affinity
    {
      JoinSplitsIfFree(heartBeatPath, affinity);
      heartBeatPath + "/" + affinity
    }

    /** The getter of the child node `n` of a JVM node. */
    function ChildPath(n: ChildNode, jvmAlias: string): (p: string)
      reads this
      ensures p == JvmPath(jvmAlias) + "/" + n.Name()
      ensures ParentPath(p) == JvmPath(jvmAlias) && NodeName(p) == n.Name()
    {
      match n
      case Owner => OwnerNodePath(jvmAlias)
      case Affinity => JvmAffinityNodePath(jvmAlias)
      case Config => ConfigNodePath(jvmAlias)
      case Request => RequestNodePath(jvmAlias)
    }
  }

  // A reference view of paths: the position of the last separator splits a path
  // into the parent path and the name of the node.

  function LastSeparator(p: string): (k: int)
    ensures -1 <= k < |p|
    ensures 0 <= k ==> p[k] == Separator
    ensures forall j :: k < j < |p| ==> p[j] != Separator
  {
    if p == [] then -1
    else if p[|p| - 1] == Separator then |p| - 1
    else LastSeparator(p[..|p| - 1])
  }

  /** The parent of a path: everything before its last separator ("" if it has none). */
  function ParentPath(p: string): string
  {
    var k := LastSeparator(p);
    if k < 0 then "" else p[..k]
  }

  /** The name of the node a path denotes: everything after its last separator. */
  function NodeName(p: string): string
  {
    p[LastSeparator(p) + 1..]
  }

  /** Joining a parent and a separator-free name is undone by ParentPath and NodeName. */
  lemma JoinSplits(parent: string, name: string)
    requires Separator !in name
    ensures ParentPath(parent + "/" + name) == parent
    ensures NodeName(parent + "/" + name) == name
  {
    var p := parent + "/" + name;
    var k := LastSeparator(p);
    assert p[|parent|] == Separator;
    assert k == |parent|;
    assert p[..k] == parent;
    assert p[k + 1..] == name;
  }

  lemma JoinSplitsIfFree(parent: string, name: string)
    ensures Separator !in name ==> ParentPath(parent + "/" + name) == parent && NodeName(parent + "/" + name) == name
  {
    if Separator !in name {
      JoinSplits(parent, name);
    }
  }

  lemma PrefixCancels(p: string, x: string, y: string)
    requires p + x == p + y
    ensures x == y
  {
    assert x == (p + x)[|p|..];
    assert y == (p + y)[|p|..];
  }

  lemma SuffixCancels(x: string, y: string, s: string)
    requires x + s == y + s
    ensures x == y
  {
    assert |x| == |y|;
    assert x == (x + s)[..|x|];
    assert y == (y + s)[..|y|];
  }

  /** Each child path is the JVM path extended by a separator and the node name. */
  lemma ChildPathExtendsJvmPath(c: ZookeeperConfig, n: ChildNode, a: string)
    ensures c.ChildPath(n, a) == c.JvmPath(a) + "/" + n.Name()
    ensures c.JvmPath(a) < c.ChildPath(n, a)
    ensures ParentPath(c.ChildPath(n, a)) == c.JvmPath(a)
    ensures NodeName(c.ChildPath(n, a)) == n.Name()
  {
  }

  lemma NodeNamesDistinct(m: ChildNode, n: ChildNode)
    ensures m.Name() == n.Name() <==> m == n
  {
  }

  /** For one alias the four child paths are pairwise distinct. */
  lemma ChildPathsDistinct(c: ZookeeperConfig, m: ChildNode, n: ChildNode, a: string)
    ensures c.ChildPath(m, a) == c.ChildPath(n, a) <==> m == n
  {
    ChildPathExtendsJvmPath(c, m, a);
    ChildPathExtendsJvmPath(c, n, a);
    if c.ChildPath(m, a) == c.ChildPath(n, a) {
      PrefixCancels(c.JvmPath(a) + "/", m.Name(), n.Name());
      NodeNamesDistinct(m, n);
    }
  }

  lemma JvmPathInjective(c: ZookeeperConfig, a: string, b: string)
    ensures c.JvmPath(a) == c.JvmPath(b) <==> a == b
  {
    if c.JvmPath(a) == c.JvmPath(b) {
      PrefixCancels(c.configPath + "/", a, b);
    }
  }

  lemma ChildPathInjective(c: ZookeeperConfig, n: ChildNode, a: string, b: string)
    ensures c.ChildPath(n, a) == c.ChildPath(n, b) <==> a == b
  {
    ChildPathExtendsJvmPath(c, n, a);
    ChildPathExtendsJvmPath(c, n, b);
    if c.ChildPath(n, a) == c.ChildPath(n, b) {
      SuffixCancels(c.JvmPath(a), c.JvmPath(b), "/" + n.Name());
      JvmPathInjective(c, a, b);
    }
  }

  /** The JVM path of a separator-free alias is no child path of any JVM. */
  lemma JvmPathIsNoChildPath(c: ZookeeperConfig, n: ChildNode, a: string, b: string)
    requires Separator !in a
    ensures c.JvmPath(a) != c.ChildPath(n, b)
  {
    ChildPathExtendsJvmPath(c, n, b);
  }

  /** Without separator-freeness the JVM node of "x/owner" is the owner node of "x". */
  lemma SeparatorInAliasCollides(c: ZookeeperConfig)
    ensures c.JvmPath("x/owner") == c.OwnerNodePath("x")
  {
  }

  /** Affinity-group paths share the heartbeat namespace with worker paths. */
  lemma AffinityWorkerPathIsWorkerPath(c: ZookeeperConfig, x: string)
    ensures c.AffinityWorkerPath(x) == c.WorkerNodePath() <==> x == c.workerAlias
  {
    if c.AffinityWorkerPath(x) == c.WorkerNodePath() {
      PrefixCancels(c.heartBeatPath + "/", x, c.workerAlias);
    }
  }

  /** Different affinity labels give different affinity-group paths. */
  lemma AffinityWorkerPathInjective(c: ZookeeperConfig, x: string, y: string)
    ensures c.AffinityWorkerPath(x) == c.AffinityWorkerPath(y) <==> x == y
  {
    if c.AffinityWorkerPath(x) == c.AffinityWorkerPath(y) {
      PrefixCancels(c.heartBeatPath + "/", x, y);
    }
  }
}
