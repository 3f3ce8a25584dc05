/** The descriptor of the collector's `agent_stream` functional module: a fixed
    module name and the ordered list of service capabilities that every
    implementation of the module must provide. */
module AgentStreamModule {

  /** The service-capability interfaces the module declares. Only their
      identity matters here; what each service does is not part of this model. */
  datatype Capability =
    | ApplicationIDService
    | InstanceIDService
    | ServiceNameService
    | CpuMetricService
    | GCMetricService
    | MemoryMetricService
    | MemoryPoolMetricService
    | InstanceHeartBeatService
    | TraceSegmentService

  /** The module's fixed name. */
  const NAME: string := "agent_stream"

  /** The name under which the module is known. */
  function Name(): (r: string)
    ensures r == NAME
    ensures r == "agent_stream"
  {
    NAME
  }

  // ---------------------------------------------------------------------------
  // Specification: the declared capabilities, in declaration order
  // ---------------------------------------------------------------------------

  /** The registration services, in the order the module adds them. */
  function RegisterServices(): seq<Capability>
  {
    [ApplicationIDService, InstanceIDService, ServiceNameService]
  }

  /** The JVM metric services, in the order the module adds them. */
  function JVMServices(): seq<Capability>
  {
    [CpuMetricService, GCMetricService, MemoryMetricService,
     MemoryPoolMetricService, InstanceHeartBeatService]
  }

  /** Everything the module declares: the registration services, then the JVM
      services, then the trace-segment service. */
  function DeclaredServices(): seq<Capability>
  {
    RegisterServices() + JVMServices() + [TraceSegmentService]
  }

  /** No capability occurs twice in `s`. */
  predicate NoDuplicates(s: seq<Capability>)
  {
    forall i, j :: 0 <= i < j < |s| ==> s[i] != s[j]
  }

  // ---------------------------------------------------------------------------
  // The mutable list the declaration is built in
  // ---------------------------------------------------------------------------

  /** A growable list of capabilities, appended to in place. */
  class ClassList {
    var elements: seq<Capability>

    /** A new list is empty. */
    constructor ()
      ensures elements == []
    {
      elements := [];
    }

    /** Appends `c` at the end; the earlier entries stay where they were. */
    method Add(c: Capability)
      modifies this
      ensures elements == old(elements) + [c]
    {
      elements := elements + [c];
    }

    /** Copies the current entries, in order, into a new array. */
    method ToArray() returns (a: array<Capability>)
      ensures fresh(a)
      ensures a[..] == elements
    {
      a := new Capability[|elements|](i requires 0 <= i < |elements| reads this => elements[i]);
    }
  }

  /** Appends the three registration services to `classes`. */
  method AddRegisterService(classes: ClassList)
    modifies classes
    ensures |classes.elements| == |old(classes.elements)| + 3
    ensures classes.elements[..|old(classes.elements)|] == old(classes.elements)
    ensures classes.elements[|old(classes.elements)|..] == RegisterServices()
  {
    classes.Add(ApplicationIDService);
    classes.Add(InstanceIDService);
    classes.Add(ServiceNameService);
  }

  /** Appends the five JVM metric services to `classes`. */
  method AddJVMService(classes: ClassList)
    modifies classes
    ensures |classes.elements| == |old(classes.elements)| + 5
    ensures classes.elements[..|old(classes.elements)|] == old(classes.elements)
    ensures classes.elements[|old(classes.elements)|..] == JVMServices()
  {
    classes.Add(CpuMetricService);
    classes.Add(GCMetricService);
    classes.Add(MemoryMetricService);
    classes.Add(MemoryPoolMetricService);
    classes.Add(InstanceHeartBeatService);
  }

  /** Builds the declaration in a list of its own and returns it as a new
      array: nine distinct capabilities, the trace-segment service last. */
  method Services() returns (r: array<Capability>)
    ensures fresh(r)
    ensures r[..] == DeclaredServices()
    ensures r.Length == 9 && r[8] == TraceSegmentService
    ensures NoDuplicates(r[..])
  {
    var classes := new ClassList();
    AddRegisterService(classes);
    AddJVMService(classes);
    classes.Add(TraceSegmentService);
    assert classes.elements == DeclaredServices();
    r := classes.ToArray();
    DeclaredServicesDistinct();
  }

  /** Asking twice gives two separate arrays with the same contents: nothing
      carries over from one call to the next. */
  method ServicesTwice() returns (first: array<Capability>, second: array<Capability>)
    ensures first != second
    ensures first[..] == second[..] == DeclaredServices()
  {
    first := Services();
    second := Services();
  }

  // ---------------------------------------------------------------------------
  // Properties of the declaration
  // ---------------------------------------------------------------------------

  /** The declaration has nine entries: three registration services at the
      front, five JVM services after them, the trace-segment service last. */
  lemma DeclaredServicesLayout()
    ensures |DeclaredServices()| == 9
    ensures DeclaredServices()[..3] == RegisterServices()
    ensures DeclaredServices()[3..8] == JVMServices()
    ensures DeclaredServices()[8] == TraceSegmentService
  {
  }

  /** Every capability is declared exactly once. */
  lemma EachCapabilityDeclaredOnce(c: Capability)
    ensures multiset(DeclaredServices())[c] == 1
  {
    match c
    case ApplicationIDService =>
    case InstanceIDService =>
    case ServiceNameService =>
    case CpuMetricService =>
    case GCMetricService =>
    case MemoryMetricService =>
    case MemoryPoolMetricService =>
    case InstanceHeartBeatService =>
    case TraceSegmentService =>
  }

  /** A capability list has no two equal entries exactly when no capability
      occurs in it more than once. */
  lemma {:induction false} NoDuplicatesIffAtMostOnce(s: seq<Capability>)
    ensures NoDuplicates(s) <==> forall c :: multiset(s)[c] <= 1
  {
    if s != [] {
      var t := s[1..];
      assert s == [s[0]] + t;
      assert multiset(s) == multiset{s[0]} + multiset(t);
      NoDuplicatesIffAtMostOnce(t);
      if NoDuplicates(s) {
        assert NoDuplicates(t) by {
          forall i, j | 0 <= i < j < |t| ensures t[i] != t[j] {
            assert t[i] == s[i + 1] && t[j] == s[j + 1];
          }
        }
        assert s[0] !in t by {
          forall k | 0 <= k < |t| ensures t[k] != s[0] {
            assert t[k] == s[k + 1];
          }
        }
      }
      if forall c :: multiset(s)[c] <= 1 {
        forall c ensures multiset(t)[c] <= 1 {
          assert multiset(t)[c] <= multiset(s)[c];
        }
        assert multiset(t)[s[0]] == 0 by {
          assert multiset(s)[s[0]] == 1 + multiset(t)[s[0]] <= 1;
        }
        forall i, j | 0 <= i < j < |s| ensures s[i] != s[j] {
          if i == 0 {
            assert s[j] == t[j - 1];
          } else {
            assert s[i] == t[i - 1] && s[j] == t[j - 1];
          }
        }
      }
    }
  }

  /** The declared capabilities are pairwise distinct. */
  lemma DeclaredServicesDistinct()
    ensures NoDuplicates(DeclaredServices())
  {
    forall c ensures multiset(DeclaredServices())[c] <= 1 {
      EachCapabilityDeclaredOnce(c);
    }
    NoDuplicatesIffAtMostOnce(DeclaredServices());
  }

  /** Every capability there is appears among the declared ones. */
  lemma EveryCapabilityDeclared(c: Capability)
    ensures c in DeclaredServices()
  {
    EachCapabilityDeclaredOnce(c);
  }

  /** The position at which the module declares `c`. */
  function DeclaredIndex(c: Capability): (i: nat)
    ensures i < |DeclaredServices()|
    ensures DeclaredServices()[i] == c
  {
    match c
    case ApplicationIDService => 0
    case InstanceIDService => 1
    case ServiceNameService => 2
    case CpuMetricService => 3
    case GCMetricService => 4
    case MemoryMetricService => 5
    case MemoryPoolMetricService => 6
    case InstanceHeartBeatService => 7
    case TraceSegmentService => 8
  }

  /** Each position of the declaration is the declared position of the
      capability found there, so `DeclaredIndex` and indexing into
      `DeclaredServices()` are inverse to each other. */
  lemma DeclaredIndexRoundTrip(k: nat)
    requires k < |DeclaredServices()|
    ensures DeclaredIndex(DeclaredServices()[k]) == k
  {
    DeclaredServicesDistinct();
  }
}
