# agent_stream module descriptor

This is a Dafny model of the descriptor for the collector's `agent_stream` functional module. A module
descriptor gives a functional module a fixed name. It also declares the ordered list of
service-capability interfaces that every implementation of the module must provide. The
module registry reads these declarations at startup.

The model is in `agent_stream_module.dfy`, module `AgentStreamModule`:

- `Capability` is an enum with one constructor per declared interface class. The model
  drops the Java `I` prefix, so `IApplicationIDService` becomes `ApplicationIDService`.
- `NAME` and `Name()` are the module's constant name.
- `ClassList` models the `java.util.ArrayList` that `services()` builds. It is an object
  with a `seq` field. `Add` appends to that field in place, and `ToArray` copies it into a
  fresh array.
- `AddRegisterService` and `AddJVMService` are the two private helpers. They receive the
  list by reference and append to it.
- `Services()` creates a new list and fills it through the helpers. It then adds the
  trace-segment service and returns a fresh array.
- `RegisterServices`, `JVMServices` and `DeclaredServices` are the specification
  functions: the declared capabilities in order. The lemmas state what the declaration
  guarantees: its layout, that every capability is declared exactly once, and that the
  entries are pairwise distinct.
  `DeclaredIndex` gives the position of each capability in the declaration.

## Model

| member | source | states |
|---|---|---|
| AgentStreamModule.Name | apm-collector/apm-collector-agent-stream/collector-agent-stream-define/src/main/java/org/skywalking/apm/collector/agent/stream/AgentStreamModule.java:39-43 | the module's name is always the constant `NAME`, which is `"agent_stream"` |
| AgentStreamModule.ClassList.constructor | apm-collector/apm-collector-agent-stream/collector-agent-stream-define/src/main/java/org/skywalking/apm/collector/agent/stream/AgentStreamModule.java:46 | the list that `services()` builds starts empty |
| AgentStreamModule.ClassList.Add | apm-collector/apm-collector-agent-stream/collector-agent-stream-define/src/main/java/org/skywalking/apm/collector/agent/stream/AgentStreamModule.java:50 | adding a capability puts it at the end of the list and keeps the earlier entries |
| AgentStreamModule.ClassList.ToArray | apm-collector/apm-collector-agent-stream/collector-agent-stream-define/src/main/java/org/skywalking/apm/collector/agent/stream/AgentStreamModule.java:52 | the returned array is newly allocated and holds the list's entries in the same order |
| AgentStreamModule.AddRegisterService | apm-collector/apm-collector-agent-stream/collector-agent-stream-define/src/main/java/org/skywalking/apm/collector/agent/stream/AgentStreamModule.java:55-59 | the list grows by exactly three entries; the old entries are an unchanged prefix; the new tail is application-ID, instance-ID, service-name, in that order |
| AgentStreamModule.AddJVMService | apm-collector/apm-collector-agent-stream/collector-agent-stream-define/src/main/java/org/skywalking/apm/collector/agent/stream/AgentStreamModule.java:61-67 | the list grows by exactly five entries; the old entries are an unchanged prefix; the new tail is CPU, GC, memory, memory-pool, instance-heartbeat, in that order |
| AgentStreamModule.Services | apm-collector/apm-collector-agent-stream/collector-agent-stream-define/src/main/java/org/skywalking/apm/collector/agent/stream/AgentStreamModule.java:45-53 | each call returns a newly allocated array holding the register services, then the JVM services, then the trace-segment service; it has nine pairwise-distinct entries and the trace-segment service is last |
| AgentStreamModule.ServicesTwice | apm-collector/apm-collector-agent-stream/collector-agent-stream-define/src/main/java/org/skywalking/apm/collector/agent/stream/AgentStreamModule.java:45-53 | two calls of `Services()` return two different arrays with equal contents, so nothing accumulates between calls |
| AgentStreamModule.DeclaredServicesLayout | apm-collector/apm-collector-agent-stream/collector-agent-stream-define/src/main/java/org/skywalking/apm/collector/agent/stream/AgentStreamModule.java:48-50 | the declaration has nine entries: positions 0-2 are the register services, positions 3-7 the JVM services, and position 8 the trace-segment service |
| AgentStreamModule.EachCapabilityDeclaredOnce | apm-collector/apm-collector-agent-stream/collector-agent-stream-define/src/main/java/org/skywalking/apm/collector/agent/stream/AgentStreamModule.java:50-66 | each of the nine capabilities occurs exactly once in the declaration |
| AgentStreamModule.EveryCapabilityDeclared | apm-collector/apm-collector-agent-stream/collector-agent-stream-define/src/main/java/org/skywalking/apm/collector/agent/stream/AgentStreamModule.java:50-66 | no capability interface is left out of the declaration |
| AgentStreamModule.NoDuplicatesIffAtMostOnce | apm-collector/apm-collector-agent-stream/collector-agent-stream-define/src/main/java/org/skywalking/apm/collector/agent/stream/AgentStreamModule.java:50-66 | a capability list has no two equal entries if and only if no capability occurs in it more than once; this ties the pairwise form of distinctness to the each-literal-added-once form |
| AgentStreamModule.DeclaredServicesDistinct | apm-collector/apm-collector-agent-stream/collector-agent-stream-define/src/main/java/org/skywalking/apm/collector/agent/stream/AgentStreamModule.java:50-66 | the declared capabilities are pairwise distinct |
| AgentStreamModule.DeclaredIndex | apm-collector/apm-collector-agent-stream/collector-agent-stream-define/src/main/java/org/skywalking/apm/collector/agent/stream/AgentStreamModule.java:48-50 | every capability has a position in the declaration, and the declaration holds that capability at that position |
| AgentStreamModule.DeclaredIndexRoundTrip | apm-collector/apm-collector-agent-stream/collector-agent-stream-define/src/main/java/org/skywalking/apm/collector/agent/stream/AgentStreamModule.java:48-50 | for every position of the declaration, the declared position of the capability found there is that position; with `DeclaredIndex` this gives a one-to-one match between the nine capabilities and the nine positions |

## Left out

- The `Module` base class and the module registry are not part of this model. The registry resolves declared capabilities to providers, so registration, resolution and lookup errors are not modelled.
- The service interfaces have no behaviour in this model. Only their identity is modelled, as the `Capability` constructors.
- Java reflection and `Class` objects are not modelled. An array of `Capability` values stands for the `Class[]` result.
- The `toArray(new Class[] {})` conversion is modelled only by its outcome: a fresh array with the list's contents. The model ignores how the argument array is sized or reused.
- The full `java.util.List` interface is not modelled. `ClassList` covers only creation, `add` and `toArray`.
- Trace-segment aggregation, time bucketing, flushing and persistence are not part of this model. This includes `ServiceReferenceEsMetricPersistenceDAO.java`.
