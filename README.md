# Design models for MPSoC design-space exploration, in Dafny

This project models the Java tools that build design models for
design-space exploration (DSE) on multiprocessor systems-on-chip. The
exploration itself is done by an external tool. The models are typed
system graphs: vertices carry traits and properties, and edges connect
ports. The tools covered here are:

- **Platform builders.** `PlatformBuilder` and `components/Platform` add
  memories, switches (routers), CPUs with one scheduler per core, and FPGAs,
  and connect components. Two `MPSoC` classes, one in the `models` program
  and one in the `platform-model` program, build a processing system.
- **Application builder.** `ApplicationBuilder` adds SDF actors, software
  and hardware implementations, channels with production and consumption
  rates, and input and output boundaries. `ApplicationHandler.SequentialSDF`
  builds a chain of `n` actors.
- **FPGA transformer.** `FPGATransformer.Transform` turns every
  hardware-capable actor into a processing core on every FPGA. Each core is
  connected to the first switch that FPGA is attached to, and the actor
  receives renamed hardware requirements.
- **Solution parser.** `SolutionParser` renders a DSE solution as six
  titled sections of text, built from the viewers it finds on each vertex.
- **Printer.** `Printer` splits an input path into a directory and a file
  name, and derives the output paths from them.

Each system graph is a `Graphs.SystemGraph` object. Its `model` field holds
a value: a map from vertex names to vertex records, plus a sequence of edges.

The Java builders are objects that change a graph in place, so each becomes
a Dafny `class` whose methods modify that object. Every method is proved
equal to a step function on the old state, for example
`State() == AddCPUStep(old(State()), ...)`. Lemmas then state what the step
function guarantees:

- which records and edges appear;
- which error is thrown, and when;
- that the builder's consistency invariant is kept. The invariant says
  every registered viewer has its trait, and every edge uses declared
  ports.

Java exceptions and failed `assert`s become an `Outcome` (`Done` or
`Thrown(e)`), or a `Result` for operations that return a value. State
changed before a throw is kept, as in Java.

Hash-map and hash-set iteration orders are unspecified in Java. They become
parameters: a sequence `order` that enumerates the set
(`IsEnumeration(order, set)`). Every property is proved for all such orders.

Some constants behave differently from how they read, and the model keeps
the code's behaviour:

- The memory methods (`AddMemory`, `AddMemoryToPS`) take a frequency and a
  size but ignore them. They always record 600 MHz and 4 GB, expressed in
  bits.
- In the `models` MPSoC, the core frequency `(long) 1.5 * Units.GHZ` is
  1 GHz, because the cast applies to `1.5` before the multiplication.

## Model

| member | source | states |
|---|---|---|
| Platforms.NewPlatform | models/app/src/main/java/models/platform_model/PlatformBuilder.java:22-29 | a new platform holds one structure vertex, a grey box, registered as the structure viewer, with no edges, and is consistent |
| Platforms.Matching | models/app/src/main/java/models/platform_model/components/Platform.java:114-150 | the viewers selected by a name fragment are exactly those registered names that contain it, minus the excluded one |
| Platforms.MatchingDistinct | models/app/src/main/java/models/platform_model/components/Platform.java:114-150 | the selection never lists a viewer twice |
| Platforms.ExtractedViews | models/app/src/main/java/models/platform_model/PlatformBuilder.java:35-62 | wrapping a graph registers a vertex exactly when it has one of the viewer traits; logic modules count only in the builder, and the registered kind follows the trait |
| Platforms.FindGreyBox | models/app/src/main/java/models/platform_model/PlatformBuilder.java:35-62 | the search of the wrapped graph succeeds exactly when some vertex is a grey box |
| Platforms.ExtractViewers | models/app/src/main/java/models/platform_model/components/Platform.java:40-66 | the loop over the vertices builds the registry that the extraction function defines over all vertices |
| Platforms.CoreNames | models/app/src/main/java/models/platform_model/PlatformBuilder.java:298-330 | a CPU with `n > 1` cores names them `name_C0` … `name_C<n-1>`; a CPU with one core names it `name` |
| Platforms.CoreNamesDistinct | models/app/src/main/java/models/platform_model/PlatformBuilder.java:298-330 | two different core indices give two different core names |
| Platforms.CoreNamesApart | models/app/src/main/java/models/platform_model/PlatformBuilder.java:298-330 | no core name equals another core's name or any scheduler name |
| Platforms.CoresBuilt | models/app/src/main/java/models/platform_model/PlatformBuilder.java:298-330 | after the core loop every core has its processing record, with frequency and instructions, and its scheduler managing it |
| Platforms.CoresViewers | models/app/src/main/java/models/platform_model/PlatformBuilder.java:298-330 | the core loop registers exactly the cores, as processing viewers |
| Platforms.CoresEdges | models/app/src/main/java/models/platform_model/PlatformBuilder.java:298-330 | the core loop appends exactly the core–scheduler edge pairs, in core order |
| Platforms.SchedulersUnregistered | models/app/src/main/java/models/platform_model/PlatformBuilder.java:298-330 | schedulers are vertices but never registered viewers |
| Platforms.CoresConsistent | models/app/src/main/java/models/platform_model/PlatformBuilder.java:298-330 | adding cores keeps the platform consistent |
| Platforms.CpuFacts | models/app/src/main/java/models/platform_model/components/Platform.java:253-276 | adding a CPU keeps consistency, registers exactly its cores, appends exactly their scheduler edges, and builds each core |
| Platforms.MemoryStep | models/app/src/main/java/models/platform_model/PlatformBuilder.java:200-210 | adding a memory registers it as a memory viewer with the memory trait, a frequency and a space; no other record and no edge changes |
| Platforms.SwitchStep | models/app/src/main/java/models/platform_model/PlatformBuilder.java:220-231 | adding a switch registers a communication viewer with frequency, latency, flit size, cycles per flit and concurrency; no edge changes |
| Platforms.MemoryStepConsistent | models/app/src/main/java/models/platform_model/PlatformBuilder.java:200-210 | adding a memory keeps the platform consistent |
| Platforms.SwitchStepConsistent | models/app/src/main/java/models/platform_model/PlatformBuilder.java:220-231 | adding a switch keeps the platform consistent |
| Linking.LinkOne | models/app/src/main/java/models/platform_model/PlatformBuilder.java:160-192 | linking one pair adds a port on each end and appends the edges of both directions, unless the pair of viewer kinds (processing and memory) is illegal, which throws `UnsupportedOperationException` and changes nothing |
| Linking.LinkAllDone | models/app/src/main/java/models/platform_model/PlatformBuilder.java:160-192 | linking a list of sources succeeds exactly when every pair is legal, and then appends exactly their edges in order |
| Linking.LinkAllStops | models/app/src/main/java/models/platform_model/PlatformBuilder.java:160-192 | the first illegal pair stops the loop, keeping the links already made |
| Linking.LinkAllConsistent | models/app/src/main/java/models/platform_model/components/Platform.java:114-150 | linking keeps the platform consistent |
| Linking.LinkAllJoins | models/app/src/main/java/models/platform_model/components/Platform.java:114-150 | after a successful linking, every source is connected to the destination |
| Linking.CommunicationLegal | models/app/src/main/java/models/platform_model/PlatformBuilder.java:129-151 | every pair whose destination is a communication module is legal |
| PlatformBuilders.ConnectOneWayStep | models/app/src/main/java/models/platform_model/PlatformBuilder.java:129-151 | a one-way connection succeeds exactly when both names are registered and the pair is legal, and then adds ports `to_<dst>` and `from_<src>` and one containment edge; an illegal pair of registered names throws `UnsupportedOperationException`, an unregistered name fails an assertion, and failures change nothing |
| PlatformBuilders.ConnectOneWayConsistent | models/app/src/main/java/models/platform_model/PlatformBuilder.java:129-151 | a one-way connection keeps the builder consistent |
| PlatformBuilders.TwoWaySources | models/app/src/main/java/models/platform_model/PlatformBuilder.java:160-192 | the sources of a two-way connection are exactly the registered names containing the fragment, other than the destination |
| PlatformBuilders.ConnectTwoWayFacts | models/app/src/main/java/models/platform_model/PlatformBuilder.java:160-192 | a two-way connection keeps consistency; it succeeds exactly when the destination is registered, some source matches and every pair is legal, and then appends exactly the link edges |
| PlatformBuilders.ConnectTwoWayJoins | models/app/src/main/java/models/platform_model/PlatformBuilder.java:160-192 | after a successful two-way connection every matching source is connected to the destination |
| PlatformBuilders.AddSwitchStep | models/app/src/main/java/models/platform_model/PlatformBuilder.java:220-231 | a builder switch has latency 0, cycles per flit equal to `Integer.MAX_VALUE` and concurrency 1 |
| PlatformBuilders.FirstPort | models/app/src/main/java/models/platform_model/PlatformBuilder.java:240-288 | the port chosen for a component is the first of the switch's ports whose name contains it; none is chosen exactly when no port does |
| PlatformBuilders.RoutesTable | models/app/src/main/java/models/platform_model/PlatformBuilder.java:240-288 | the routing table has an entry for every routed component's port, and only switch ports appear in it |
| PlatformBuilders.RoutesTableOrigin | models/app/src/main/java/models/platform_model/PlatformBuilder.java:240-288 | each table entry comes from one routed component: its port maps to that component's target ports |
| PlatformBuilders.RoutesTableLast | models/app/src/main/java/models/platform_model/PlatformBuilder.java:240-288 | where two components share a port, the later one in iteration order wins |
| PlatformBuilders.SwitchRoutesStep | models/app/src/main/java/models/platform_model/PlatformBuilder.java:240-288 | setting internal routes succeeds exactly when the switch is registered and every component has a port; otherwise an assertion fails and nothing changes |
| PlatformBuilders.SwitchRoutesConsistent | models/app/src/main/java/models/platform_model/PlatformBuilder.java:240-288 | setting routes keeps the builder consistent |
| PlatformBuilders.Reciprocals | models/app/src/main/java/models/platform_model/PlatformBuilder.java:298-330 | the builder's instruction table keeps every mode and operation and stores the reciprocal of each cycle count |
| PlatformBuilders.AddCPUFacts | models/app/src/main/java/models/platform_model/PlatformBuilder.java:298-330 | a builder CPU keeps consistency, registers exactly its cores, appends their physical scheduler edges, and builds each core |
| PlatformBuilders.BramNamesApart | models/app/src/main/java/models/platform_model/PlatformBuilder.java:340-362 | the FPGA, its BRAM switch and its BRAM have three different names |
| PlatformBuilders.FpgaPartsViewers | models/app/src/main/java/models/platform_model/PlatformBuilder.java:340-362 | an FPGA with block RAM registers the FPGA as a logic viewer, its switch as a communication viewer and its BRAM as a memory viewer |
| PlatformBuilders.FpgaFirstLink | models/app/src/main/java/models/platform_model/PlatformBuilder.java:340-362 | the FPGA-to-switch connection succeeds and connects the FPGA to its BRAM switch |
| PlatformBuilders.FpgaSecondLink | models/app/src/main/java/models/platform_model/PlatformBuilder.java:340-362 | the switch-to-BRAM connection keeps consistency and, when it succeeds, connects the switch to the BRAM |
| PlatformBuilders.AddFPGAFacts | models/app/src/main/java/models/platform_model/PlatformBuilder.java:340-362 | an FPGA with block RAM keeps consistency, is a logic module, and is connected to its BRAM switch, which is connected to its BRAM |
| PlatformBuilders.CheckRoutes | models/app/src/main/java/models/platform_model/PlatformBuilder.java:240-288 | the assertion loop accepts exactly when every routed component has a port on the switch |
| PlatformBuilders.BuildRoutesTable | models/app/src/main/java/models/platform_model/PlatformBuilder.java:240-288 | the routing loop builds the routing table function |
| PlatformBuilders.PlatformBuilder.constructor | models/app/src/main/java/models/platform_model/PlatformBuilder.java:22-29 | a fresh graph holding the new platform |
| PlatformBuilders.PlatformBuilder.Wrap | models/app/src/main/java/models/platform_model/PlatformBuilder.java:35-62 | wrapping keeps the given graph object and registers the extracted viewers, logic modules included |
| PlatformBuilders.PlatformBuilder.FromGraph | models/app/src/main/java/models/platform_model/PlatformBuilder.java:35-62 | wrapping a graph without a grey box throws `IllegalArgumentException`; otherwise it wraps the graph |
| PlatformBuilders.PlatformBuilder.ConnectOneWay | models/app/src/main/java/models/platform_model/PlatformBuilder.java:129-151 | the new state and the outcome are those of the one-way step |
| PlatformBuilders.PlatformBuilder.ConnectTwoWay | models/app/src/main/java/models/platform_model/PlatformBuilder.java:160-192 | the new state and the outcome are those of the two-way step |
| PlatformBuilders.PlatformBuilder.AddMemory | models/app/src/main/java/models/platform_model/PlatformBuilder.java:200-210 | the new state is the memory step's |
| PlatformBuilders.PlatformBuilder.AddSwitch | models/app/src/main/java/models/platform_model/PlatformBuilder.java:220-231 | the new state is the switch step's |
| PlatformBuilders.PlatformBuilder.AddInternalSwitchRoutes | models/app/src/main/java/models/platform_model/PlatformBuilder.java:240-288 | the new state and the outcome are those of the routes step |
| PlatformBuilders.PlatformBuilder.AddCPU | models/app/src/main/java/models/platform_model/PlatformBuilder.java:298-330 | the new state is the CPU step's |
| PlatformBuilders.PlatformBuilder.AddFPGA | models/app/src/main/java/models/platform_model/PlatformBuilder.java:340-362 | the new state and the outcome are those of the FPGA step |
| ComponentPlatforms.ConnectFacts | models/app/src/main/java/models/platform_model/components/Platform.java:114-150 | a connection keeps consistency; a missing destination or no matching source throws `IllegalArgumentException` and changes nothing; otherwise it succeeds exactly when every pair is legal, and then appends the link edges |
| ComponentPlatforms.ConnectJoins | models/app/src/main/java/models/platform_model/components/Platform.java:114-150 | after a successful connection every matching name is connected to the destination |
| ComponentPlatforms.AddRouterStep | models/app/src/main/java/models/platform_model/components/Platform.java:232-243 | a router has latency 0, flit size 8, one cycle per flit and concurrency 1 |
| ComponentPlatforms.RouterNameInjective | models/app/src/main/java/models/platform_model/components/Platform.java:161-207 | different sources get different router names in front of one memory |
| ComponentPlatforms.RouteAllDone | models/app/src/main/java/models/platform_model/components/Platform.java:161-207 | routing distinct sources to a memory succeeds exactly when none of their router names is registered, and then registers exactly those routers and appends exactly their edges |
| ComponentPlatforms.RouteAllConsistent | models/app/src/main/java/models/platform_model/components/Platform.java:161-207 | routing keeps the platform consistent |
| ComponentPlatforms.ConnectToMemoryFacts | models/app/src/main/java/models/platform_model/components/Platform.java:161-207 | a memory connection keeps consistency, can fail only with `IllegalArgumentException`, and succeeds exactly when the memory is registered, some source matches and every router is new |
| ComponentPlatforms.Rates | models/app/src/main/java/models/platform_model/components/Platform.java:253-276 | the component CPU's instruction table keeps every mode and operation, with the given rates |
| ComponentPlatforms.AddCPUFacts | models/app/src/main/java/models/platform_model/components/Platform.java:253-276 | a component CPU keeps consistency, registers exactly its cores, appends their containment scheduler edges, and builds each core |
| ComponentPlatforms.AddFPGAStep | models/app/src/main/java/models/platform_model/components/Platform.java:278-285 | an FPGA is registered as a logic viewer with its available area; no edge changes |
| ComponentPlatforms.AddFPGAConsistent | models/app/src/main/java/models/platform_model/components/Platform.java:278-285 | adding an FPGA keeps the platform consistent |
| ComponentPlatforms.Platform.constructor | models/app/src/main/java/models/platform_model/components/Platform.java:24-34 | a fresh graph holding the new platform |
| ComponentPlatforms.Platform.Wrap | models/app/src/main/java/models/platform_model/components/Platform.java:40-66 | wrapping keeps the given graph object and registers the extracted viewers, without logic modules |
| ComponentPlatforms.Platform.FromGraph | models/app/src/main/java/models/platform_model/components/Platform.java:40-66 | wrapping a graph without a grey box throws `IllegalArgumentException`; otherwise it gives a fresh platform over the graph |
| ComponentPlatforms.Platform.Connect | models/app/src/main/java/models/platform_model/components/Platform.java:114-150 | the new state and the outcome are those of the connection step |
| ComponentPlatforms.Platform.ConnectToMemory | models/app/src/main/java/models/platform_model/components/Platform.java:161-207 | the new state and the outcome are those of the memory-connection step |
| ComponentPlatforms.Platform.AddMemory | models/app/src/main/java/models/platform_model/components/Platform.java:215-225 | the new state is the memory step's |
| ComponentPlatforms.Platform.AddRouter | models/app/src/main/java/models/platform_model/components/Platform.java:232-243 | the new state is the router step's |
| ComponentPlatforms.Platform.AddCPU | models/app/src/main/java/models/platform_model/components/Platform.java:253-276 | the new state is the CPU step's |
| ComponentPlatforms.Platform.AddFPGA | models/app/src/main/java/models/platform_model/components/Platform.java:278-285 | the new state is the FPGA step's |
| Applications.NewApplication | models/app/src/main/java/models/application_model/ApplicationBuilder.java:21-27 | a new application holds one structure vertex, a grey box, with no viewers and no edges, and is consistent |
| Applications.GetActor | models/app/src/main/java/models/application_model/ApplicationBuilder.java:58-67 | an actor lookup succeeds only for a registered SDF actor; otherwise it throws a runtime exception |
| Applications.ActorStep | models/app/src/main/java/models/application_model/ApplicationBuilder.java:44-50 | adding an actor registers it with the SDF actor trait and leaves every other record and edge as it was |
| Applications.ActorConsistent | models/app/src/main/java/models/application_model/ApplicationBuilder.java:44-50 | adding an actor keeps the application consistent |
| Applications.UpdatedRates | models/app/src/main/java/models/application_model/ApplicationBuilder.java:86-99 | adding a rate for a new port keeps the other rates; a port that already has a rate throws a runtime exception |
| Applications.SWFacts | models/app/src/main/java/models/application_model/ApplicationBuilder.java:107-122 | a software implementation succeeds exactly for an actor with instructions and a positive code size; a non-actor throws and changes nothing |
| Applications.SWConsistent | models/app/src/main/java/models/application_model/ApplicationBuilder.java:107-122 | a software implementation keeps consistency, viewers and edges |
| Applications.SWFrame | models/app/src/main/java/models/application_model/ApplicationBuilder.java:107-122 | a software implementation changes no other vertex and no rates |
| Applications.HWFacts | models/app/src/main/java/models/application_model/ApplicationBuilder.java:131-148 | a hardware implementation succeeds exactly for an actor with positive area and cycles; a non-actor throws and changes nothing |
| Applications.HWConsistent | models/app/src/main/java/models/application_model/ApplicationBuilder.java:131-148 | a hardware implementation keeps consistency, viewers and edges |
| Applications.HWFrame | models/app/src/main/java/models/application_model/ApplicationBuilder.java:131-148 | a hardware implementation changes no other vertex and no rates |
| Applications.ChannelNameFresh | models/app/src/main/java/models/application_model/ApplicationBuilder.java:157-189 | a channel is never named like either of its actors |
| Applications.ChannelOutcome | models/app/src/main/java/models/application_model/ApplicationBuilder.java:157-189 | a channel succeeds exactly when both ends are actors and neither port already has a rate; otherwise it throws a runtime exception |
| Applications.ChannelDone | models/app/src/main/java/models/application_model/ApplicationBuilder.java:157-189 | a created channel is registered as a channel viewer and linked to both actors through named ports |
| Applications.ChannelRates | models/app/src/main/java/models/application_model/ApplicationBuilder.java:76-99 | a created channel adds the production rate to the source and the consumption rate to the destination |
| Applications.ChannelConsistent | models/app/src/main/java/models/application_model/ApplicationBuilder.java:157-189 | creating a channel keeps the application consistent |
| Applications.ChannelCollision | models/app/src/main/java/models/application_model/ApplicationBuilder.java:157-189 | when only the consumer port collides, the producer rate is already written before the exception |
| Applications.ChannelPortMissing | models/app/src/main/java/models/application_model/ApplicationBuilder.java:76-84 | the edge into a newly created channel names a channel port `to_<src>` that the channel declares only when source and destination are the same actor |
| Applications.ChannelFrame | models/app/src/main/java/models/application_model/ApplicationBuilder.java:157-189 | a channel changes no other vertex except by rates on its two actors |
| Applications.BoundaryFacts | models/app/src/main/java/models/application_model/ApplicationBuilder.java:197-220 | an input or output boundary succeeds exactly for an actor, and then sets its rate for the boundary port |
| Applications.BoundaryConsistent | models/app/src/main/java/models/application_model/ApplicationBuilder.java:197-220 | a boundary keeps the application consistent |
| Applications.BoundaryFrame | models/app/src/main/java/models/application_model/ApplicationBuilder.java:197-220 | a boundary changes no other vertex |
| Applications.ApplicationBuilder.constructor | models/app/src/main/java/models/application_model/ApplicationBuilder.java:21-27 | a fresh graph holding the new application |
| Applications.ApplicationBuilder.AddActor | models/app/src/main/java/models/application_model/ApplicationBuilder.java:44-50 | the new state is the actor step's |
| Applications.ApplicationBuilder.AddSWImplementation | models/app/src/main/java/models/application_model/ApplicationBuilder.java:107-122 | the new state and the outcome are those of the software step |
| Applications.ApplicationBuilder.AddHWImplementation | models/app/src/main/java/models/application_model/ApplicationBuilder.java:131-148 | the new state and the outcome are those of the hardware step |
| Applications.ApplicationBuilder.CreateChannel | models/app/src/main/java/models/application_model/ApplicationBuilder.java:157-189 | the new state and the outcome are those of the channel step |
| Applications.ApplicationBuilder.Wire | models/app/src/main/java/models/application_model/ApplicationBuilder.java:76-84 | the graph gains the channel's vertices, ports and edges |
| Applications.ApplicationBuilder.SetInputChannel | models/app/src/main/java/models/application_model/ApplicationBuilder.java:197-204 | the new state and the outcome are those of the input-boundary step |
| Applications.ApplicationBuilder.SetOutputChannel | models/app/src/main/java/models/application_model/ApplicationBuilder.java:213-220 | the new state and the outcome are those of the output-boundary step |
| ApplicationHandlers.ActorNameInjective | models/app/src/main/java/models/application_model/ApplicationHandler.java:311-313 | `Actor_1`, `Actor_2`, … name different actors for different indices |
| ApplicationHandlers.ActorSetSize | models/app/src/main/java/models/application_model/ApplicationHandler.java:311-313 | a chain of `k` actors has `k` distinct actor names |
| ApplicationHandlers.RegistryActors | models/app/src/main/java/models/application_model/ApplicationHandler.java:311-313 | the actors registered after `k` rounds are exactly `Actor_1` … `Actor_<k>` |
| ApplicationHandlers.RoundChannelInjective | models/app/src/main/java/models/application_model/ApplicationHandler.java:328-329 | the channels of different rounds have different names |
| ApplicationHandlers.ChannelKept | models/app/src/main/java/models/application_model/ApplicationHandler.java:328-329 | after round `k` each channel `CH_Actor_<j-1>_Actor_<j>`, `j <= k`, has no initial tokens, producer `Actor_<j-1>` and consumer `Actor_<j>` |
| ApplicationHandlers.ImplRoundFacts | models/app/src/main/java/models/application_model/ApplicationHandler.java:311-327 | each round adds the actor and its software implementation, plus the hardware one when the index is among the first `hwImplActors`, without failing |
| ApplicationHandlers.OutputDone | models/app/src/main/java/models/application_model/ApplicationHandler.java:334 | with at least two actors the output boundary succeeds on the last but one actor |
| ApplicationHandlers.OutputRefused | models/app/src/main/java/models/application_model/ApplicationHandler.java:334 | with fewer than two actors the output boundary names a missing actor and throws a runtime exception, changing nothing |
| ApplicationHandlers.OutputContents | models/app/src/main/java/models/application_model/ApplicationHandler.java:306-337 | the finished graph is the sequential SDF application: each actor with its implementations and its rates, all 5; each channel `CH_Actor_<i-1>_Actor_<i>` with no initial tokens, produced by `Actor_<i-1>` and consumed by `Actor_<i>`; and the input and output boundaries |
| ApplicationHandlers.Round | models/app/src/main/java/models/application_model/ApplicationHandler.java:311-333 | one round keeps the chain invariant one actor further |
| ApplicationHandlers.RunRounds | models/app/src/main/java/models/application_model/ApplicationHandler.java:311-333 | the loop establishes the chain invariant for all actors |
| ApplicationHandlers.SequentialSDF | models/app/src/main/java/models/application_model/ApplicationHandler.java:306-337 | the call returns a graph exactly when there are at least two actors, fails with a runtime exception otherwise, and the graph it returns is the sequential SDF application |
| FPGATransformer.Having | models/app/src/main/java/models/utils/FPGATransformer.java:26-53 | the viewers listed for a trait are exactly the vertices with that trait |
| FPGATransformer.ShouldTransformIff | models/app/src/main/java/models/utils/FPGATransformer.java:62-69 | a transformation is due exactly when the platform has a logic-programmable module and the application has a hardware-capable actor, whatever the iteration order |
| FPGATransformer.Adjacent | models/app/src/main/java/models/utils/FPGATransformer.java:112-132 | the switches adjacent to a module are exactly the listed switches it has an edge with |
| FPGATransformer.FirstSwitches | models/app/src/main/java/models/utils/FPGATransformer.java:112-132 | every module is mapped to a switch it is connected to |
| FPGATransformer.OnModuleInjective | models/app/src/main/java/models/utils/FPGATransformer.java:141-176 | renaming requirement keys after a module keeps different keys different |
| FPGATransformer.PrefixedFacts | models/app/src/main/java/models/utils/FPGATransformer.java:141-176 | renamed requirements hold exactly the renamed keys, with the original values and unit rates |
| FPGATransformer.SetReqs | models/app/src/main/java/models/utils/FPGATransformer.java:159-176 | setting requirements changes only that vertex's requirements |
| FPGATransformer.PairsNull | models/app/src/main/java/models/utils/FPGATransformer.java:140-152 | an actor without hardware requirements throws `NullPointerException` at the first module, changing nothing |
| FPGATransformer.Transform | models/app/src/main/java/models/utils/FPGATransformer.java:109-209 | both graph objects end as the transformation function says and the outcome agrees; on success the two objects are returned |
| FPGATransformer.TransformActor | models/app/src/main/java/models/utils/FPGATransformer.java:137-195 | one actor's pass is the actor-pass function: resource requirements are read first, then the software counterpart is looked up, then its software requirements are read |
| FPGATransformer.TransformPairs | models/app/src/main/java/models/utils/FPGATransformer.java:140-195 | the loop over the modules is the pairs function |
| FPGATransformer.TransformPair | models/app/src/main/java/models/utils/FPGATransformer.java:140-195 | one actor on one module is the pair step |
| TransformerFacts.PairPlatform | models/app/src/main/java/models/utils/FPGATransformer.java:159-195 | one pair registers the new processing module and builds it as one core, extending the platform only |
| TransformerFacts.PairApp | models/app/src/main/java/models/utils/FPGATransformer.java:140-176 | one pair adds the renamed requirements to the actor and nothing else; a missing requirements map throws `NullPointerException` |
| TransformerFacts.PairOutcomes | models/app/src/main/java/models/utils/FPGATransformer.java:159-195 | one pair fails only with `IllegalArgumentException` (switch not registered) or `UnsupportedOperationException` |
| TransformerFacts.PairJoins | models/app/src/main/java/models/utils/FPGATransformer.java:187-195 | a pair toward a registered switch succeeds, and then the new module is connected to it |
| TransformerFacts.HWInstrsNameInjective | models/app/src/main/java/models/utils/FPGATransformer.java:141-176 | for one actor, different modules give different requirement names |
| TransformerFacts.PairsImplement | models/app/src/main/java/models/utils/FPGATransformer.java:140-195 | after a successful module loop the actor is implemented on every module |
| TransformerFacts.ActorsImplement | models/app/src/main/java/models/utils/FPGATransformer.java:137-205 | after a successful actor loop every actor is implemented on every module |
| TransformerFacts.ActorsRefuse | models/app/src/main/java/models/utils/FPGATransformer.java:140-152 | a hardware actor with resource requirements but without a software counterpart makes the transformation throw `IllegalArgumentException` |
| TransformerFacts.ActorsNull | models/app/src/main/java/models/utils/FPGATransformer.java:140-152 | an actor with a software counterpart and both requirement maps, but no hardware instructions among its resource requirements, throws `NullPointerException` |
| TransformerFacts.ActorsNoResources | models/app/src/main/java/models/utils/FPGATransformer.java:140-142 | an actor without resource requirements makes the transformation throw the accessor's exception, before the software counterpart is looked up |
| TransformerFacts.ActorsNoReqs | models/app/src/main/java/models/utils/FPGATransformer.java:144-151 | an actor met for the first time whose software counterpart has no software requirements makes the transformation throw the accessor's exception |
| TransformerFacts.ActorsHadResources | models/app/src/main/java/models/utils/FPGATransformer.java:140-142 | when the actor loop completes, every visited actor had resource requirements from the start |
| TransformerFacts.ActorsHadReqs | models/app/src/main/java/models/utils/FPGATransformer.java:144-151 | when the actor loop completes over distinct actors, every visited actor had software requirements from the start |
| TransformerFacts.AttachedIff | models/app/src/main/java/models/utils/FPGATransformer.java:112-132 | the adjacency check passes exactly when every logic-programmable module has an edge with some communication module |
| TransformerFacts.TransformRefused | models/app/src/main/java/models/utils/FPGATransformer.java:112-132 | a platform without a grey box, or with a module adjacent to no switch, is refused with `IllegalArgumentException` and neither graph changes |
| TransformerFacts.TransformImplements | models/app/src/main/java/models/utils/FPGATransformer.java:109-209 | a successful transformation implements every hardware-capable actor on every module, connected to that module's first switch; every such actor has a software counterpart; other actors are unchanged and the platform only grows |
| TransformerFacts.TransformRequirements | models/app/src/main/java/models/utils/FPGATransformer.java:109-209 | a successful transformation found resource and software requirements on every hardware-capable actor and changed no resource requirements |
| TransformerFacts.TransformMergesReqs | models/app/src/main/java/models/utils/FPGATransformer.java:152-176 | a successful transformation leaves every hardware-capable actor with the software requirements it had plus one entry `<L>_HW_INSTRUCTIONS_<a>` per module; an earlier entry of another name keeps its value |
| TransformerFacts.AddedReqsFacts | models/app/src/main/java/models/utils/FPGATransformer.java:154-176 | the added entries are exactly one per module, named by the module and actor, holding the module-prefixed hardware instructions |
| TransformerFacts.EntryKept | models/app/src/main/java/models/utils/FPGATransformer.java:175-176 | a pass leaves every requirement entry it does not overwrite with a different value |
| TransformerFacts.EntryWritten | models/app/src/main/java/models/utils/FPGATransformer.java:175-176 | a pass puts the renamed instruction map under the entry of its own module |
| TransformerFacts.PairsEntry | models/app/src/main/java/models/utils/FPGATransformer.java:154-176 | an entry that no pass of the module loop overwrites with a different value keeps its value through the loop |
| TransformerFacts.PairsNewEntry | models/app/src/main/java/models/utils/FPGATransformer.java:154-176 | after a completed module loop, the entry of each module holds that module's renamed instructions |
| TransformerFacts.PairsOldEntry | models/app/src/main/java/models/utils/FPGATransformer.java:154-176 | after a module loop, an entry that names none of its modules is the one the actor had |
| TransformerFacts.PairsReqs | models/app/src/main/java/models/utils/FPGATransformer.java:154-176 | a completed module loop merges the new entries into the actor's requirements |
| TransformerFacts.ActorPassReqs | models/app/src/main/java/models/utils/FPGATransformer.java:140-176 | a completed actor pass merges its actor's new entries into the requirements it had |
| TransformerFacts.ActorsReqs | models/app/src/main/java/models/utils/FPGATransformer.java:137-205 | after a completed actor loop over distinct actors, each of them has its new entries merged into the requirements it had |
| Solutions.Headers | models/app/src/main/java/models/utils/SolutionParser.java:48-68 | each section buffer starts as a newline, the section's title between the bold and stop-bold escapes, and a newline |
| Solutions.ByteCount | models/app/src/main/java/models/utils/SolutionParser.java:119-127 | a buffer size in bytes is the number of bits rounded down to whole bytes |
| Solutions.Line | models/app/src/main/java/models/utils/SolutionParser.java:87-127 | a vertex without the section's viewer trait adds nothing; the line is produced exactly when its required properties are readable, and a missing one throws a runtime exception |
| Solutions.VertexLines | models/app/src/main/java/models/utils/SolutionParser.java:85-127 | visiting a vertex succeeds exactly when it is complete, and then appends its lines to each section |
| Solutions.ParseAllLines | models/app/src/main/java/models/utils/SolutionParser.java:85-127 | visiting the vertices succeeds exactly when all are complete, and then appends all their lines in order |
| Solutions.StepLines | models/app/src/main/java/models/utils/SolutionParser.java:85-136 | parsing succeeds exactly when every vertex is complete, and the solution is the six sections joined, mappings first |
| Solutions.ParseFirst | models/app/src/main/java/models/utils/SolutionParser.java:85-136 | a first parse of a fresh parser gives the titles followed by the lines of every vertex |
| Solutions.ParseAgain | models/app/src/main/java/models/utils/SolutionParser.java:130-135 | a second parse reads the sections again, so the mappings section already holds the earlier solution |
| Solutions.ParseAllStop | models/app/src/main/java/models/utils/SolutionParser.java:85-127 | the first incomplete vertex stops the visit, keeping the lines already added |
| Solutions.StripRemoves | models/app/src/main/java/models/utils/SolutionParser.java:152-154 | the written text contains no bold or stop-bold escape |
| Solutions.SolutionParser.constructor | models/app/src/main/java/models/utils/SolutionParser.java:48-68 | a new parser has its graph, the six titled sections and no solution |
| Solutions.SolutionParser.VisitVertex | models/app/src/main/java/models/utils/SolutionParser.java:87-127 | visiting a vertex updates the sections as the vertex function says |
| Solutions.SolutionParser.VisitPLMapping | models/app/src/main/java/models/utils/SolutionParser.java:87-92 | the PL-mapping line of the vertex, if any |
| Solutions.SolutionParser.VisitMapping | models/app/src/main/java/models/utils/SolutionParser.java:93-98 | the memory-mapping line of the vertex, if any |
| Solutions.SolutionParser.VisitSchedule | models/app/src/main/java/models/utils/SolutionParser.java:99-103 | the schedule line of the vertex, if any |
| Solutions.SolutionParser.VisitSuperLoop | models/app/src/main/java/models/utils/SolutionParser.java:104-111 | the super-loop line of the vertex, if any |
| Solutions.SolutionParser.VisitThroughput | models/app/src/main/java/models/utils/SolutionParser.java:112-118 | the throughput line of the vertex, if any |
| Solutions.SolutionParser.VisitBuffer | models/app/src/main/java/models/utils/SolutionParser.java:119-127 | the buffer line of the vertex, if any, in bytes |
| Solutions.SolutionParser.VisitAll | models/app/src/main/java/models/utils/SolutionParser.java:85-127 | the loop over the vertices is the visit function |
| Solutions.SolutionParser.Join | models/app/src/main/java/models/utils/SolutionParser.java:130-135 | the solution is the sections joined, stored back into the mappings section |
| Solutions.SolutionParser.ParseSolution | models/app/src/main/java/models/utils/SolutionParser.java:85-136 | the new parser state and the outcome are those of the parse step |
| Solutions.SolutionParser.PrintSolution | models/app/src/main/java/models/utils/SolutionParser.java:141-144 | printing before parsing fails an assertion; otherwise it prints the solution and a newline |
| Solutions.SolutionParser.WriteSolution | models/app/src/main/java/models/utils/SolutionParser.java:150-164 | writing before parsing fails an assertion; otherwise it writes the solution without bold escapes |
| Printing.Substring | models/app/src/main/java/models/utils/Printer.java:37-48 | a substring exists exactly for bounds in range, and has the characters between them; other bounds throw `IndexOutOfBoundsException` |
| Printing.DirOf | models/app/src/main/java/models/utils/Printer.java:37-39 | the directory is the path before its last '/'; a path without '/' throws |
| Printing.NameOf | models/app/src/main/java/models/utils/Printer.java:44-48 | the name is the text between the last '/' and the last '.', and exists exactly when a '.' follows the last '/' |
| Printing.PathRoundTrip | models/app/src/main/java/models/utils/Printer.java:37-77 | splitting `<dir>/<name>.<ext>` gives back the directory and the name |
| Printing.NewWritesBack | models/app/src/main/java/models/utils/Printer.java:24-88 | a printer made from `<dir>/<name>.fiodl` writes its model back to the same path and its visualisation next to it |
| Printing.Printer.Raw | models/app/src/main/java/models/utils/Printer.java:24-25 | the path is stored; the name and the directory start empty until the constructor sets them |
| Printing.Printer.New | models/app/src/main/java/models/utils/Printer.java:24-28 | a new printer exists exactly when the path has a name and a directory, and holds them; otherwise the constructor throws |
| Printing.Printer.SetFileDir | models/app/src/main/java/models/utils/Printer.java:37-39 | the directory is set from the path, or the call throws and nothing changes |
| Printing.Printer.SetFileName | models/app/src/main/java/models/utils/Printer.java:44-48 | the name is set from the path, or the call throws and nothing changes |
| Printing.Printer.SetOutDir | models/app/src/main/java/models/utils/Printer.java:54-56 | later writes go to the given directory; path and name are kept |
| Printing.Printer.AppendToFileName | models/app/src/main/java/models/utils/Printer.java:62-64 | the name is extended by the suffix; path and directory are kept |
| Printing.Printer.PrintFIODL | models/app/src/main/java/models/utils/Printer.java:71-77 | the model goes to `<dir>/<name>.fiodl`, and the message names it |
| Printing.Printer.PrintKGT | models/app/src/main/java/models/utils/Printer.java:82-88 | the visualisation goes to `<dir>/<name>.kgt`, and the message names it |
| Printing.Printer.Read | models/app/src/main/java/models/utils/Printer.java:95-97 | the model is read from the input path |
| ModelsMPSoC.NewSoc | models/app/src/main/java/models/platform_model/components/MPSoC.java:28-41 | a new MPSoC holds exactly the vertices `MPSoC` (a structure and a grey box) and `MPSoC_PS` (a structure), joined by one structural-containment edge from the first to the second; it records no cores and is well formed |
| ModelsMPSoC.AddPsmWellformed | models/app/src/main/java/models/platform_model/components/MPSoC.java:82-112 | adding a processing-system module keeps the MPSoC well formed |
| ModelsMPSoC.AddPsmNames | models/app/src/main/java/models/platform_model/components/MPSoC.java:89 | a module `name` with `n` cores names them `MPSoC_PS_<name>_C0` … `_C<n-1>`, all apart from each other and from their schedulers |
| ModelsMPSoC.AddPsmRecords | models/app/src/main/java/models/platform_model/components/MPSoC.java:88-109 | every new core is recorded against its module |
| ModelsMPSoC.AddPsmCores | models/app/src/main/java/models/platform_model/components/MPSoC.java:88-109 | every new core is a processing module at 1 GHz, with its scheduler managing it |
| ModelsMPSoC.AddPsmModule | models/app/src/main/java/models/platform_model/components/MPSoC.java:82-112 | the module vertex is a structure and a grey box |
| ModelsMPSoC.AddPsmEdges | models/app/src/main/java/models/platform_model/components/MPSoC.java:100-104 | exactly the core–scheduler edge pairs are appended |
| ModelsMPSoC.AddPsmLeavesMemory | models/app/src/main/java/models/platform_model/components/MPSoC.java:82-112 | no new edge touches the memory or its switch |
| ModelsMPSoC.RecordedBuilt | models/app/src/main/java/models/platform_model/components/MPSoC.java:88-109 | in a well-formed MPSoC every recorded core is built at 1 GHz |
| ModelsMPSoC.MemoryToPsWellformed | models/app/src/main/java/models/platform_model/components/MPSoC.java:53-80 | attaching the memory keeps the MPSoC well formed |
| ModelsMPSoC.MemoryToPsRecords | models/app/src/main/java/models/platform_model/components/MPSoC.java:55-71 | the memory runs at 600 MHz with 32 Gbit, and the switch gets its properties; the recorded cores are kept |
| ModelsMPSoC.MemoryToPsEdges | models/app/src/main/java/models/platform_model/components/MPSoC.java:74-79 | two edges per core to the switch, then the switch–memory pair, are appended in order |
| ModelsMPSoC.MemoryToPsLinksCores | models/app/src/main/java/models/platform_model/components/MPSoC.java:74-76 | every recorded core is linked both ways with the memory switch |
| ModelsMPSoC.MemoryToPsTouchSwitch | models/app/src/main/java/models/platform_model/components/MPSoC.java:74-79 | every new edge has the memory switch at one end |
| ModelsMPSoC.MPSoC.constructor | models/app/src/main/java/models/platform_model/components/MPSoC.java:28-41 | a fresh graph holding the new MPSoC |
| ModelsMPSoC.MPSoC.BiDirectionalConnect | models/app/src/main/java/models/platform_model/components/MPSoC.java:43-51 | both directed edges are appended |
| ModelsMPSoC.MPSoC.AddMemoryToPS | models/app/src/main/java/models/platform_model/components/MPSoC.java:53-80 | the new state is the memory step's |
| ModelsMPSoC.MPSoC.AddProcessingSystemModule | models/app/src/main/java/models/platform_model/components/MPSoC.java:82-112 | the new state is the module step's |
| ModelsMPSoC.MPSoC.AddCore | models/app/src/main/java/models/platform_model/components/MPSoC.java:89-108 | one loop pass is the core step |
| ModelsMPSoC.MPSoC.AddFPGA | models/app/src/main/java/models/platform_model/components/MPSoC.java:114-116 | nothing changes |
| PlatformMPSoC.NewSoc | platform-model/app/src/main/java/platform/components/MPSoC.java:29-46 | a new MPSoC holds the `MPSoC` and `MPSoC.PS` structures, both grey boxes, joined by one containment edge; it has no cores and no OCM switch, and is well formed |
| PlatformMPSoC.AddPsmWellformed | platform-model/app/src/main/java/platform/components/MPSoC.java:48-76 | once the processing system exists, adding a module succeeds and keeps the MPSoC well formed |
| PlatformMPSoC.PsCoreNamesApart | platform-model/app/src/main/java/platform/components/MPSoC.java:60-73 | the core names of a module are distinct and differ from the module's |
| PlatformMPSoC.AddPsmCores | platform-model/app/src/main/java/platform/components/MPSoC.java:55-73 | the cores are named `MPSoC.PS.<name>.C<k>`, recorded against the module, and each is built with its frequency and instructions |
| PlatformMPSoC.AddPsmModule | platform-model/app/src/main/java/platform/components/MPSoC.java:55-73 | the module is a structure and a grey box, contained in the processing system, and contains each core |
| PlatformMPSoC.AddOcmWellformed | platform-model/app/src/main/java/platform/components/MPSoC.java:79-109 | adding the OCM succeeds exactly when the OCM switch exists, otherwise throws `NullPointerException`, and keeps the MPSoC well formed |
| PlatformMPSoC.AddOcmFacts | platform-model/app/src/main/java/platform/components/MPSoC.java:86-107 | the OCM is a memory with its port, frequency and space; when the switch exists it is linked with it both ways and contained in the platform |
| PlatformMPSoC.AddOcmSwitchWellformed | platform-model/app/src/main/java/platform/components/MPSoC.java:111-152 | adding the OCM switch succeeds and keeps the MPSoC well formed |
| PlatformMPSoC.AddOcmSwitchFacts | platform-model/app/src/main/java/platform/components/MPSoC.java:116-151 | the switch is a communication module at 600 MHz with its five ports, contained in the platform, and is remembered; the cores are kept |
| PlatformMPSoC.AddOcmSwitchEdgesAt | platform-model/app/src/main/java/platform/components/MPSoC.java:133-149 | after the containment edge come two edges per core in iteration order |
| PlatformMPSoC.AddOcmSwitchLinksCores | platform-model/app/src/main/java/platform/components/MPSoC.java:133-149 | every recorded core is linked both ways with the OCM switch, adding one containment edge and two edges per core |
| PlatformMPSoC.MPSoC.constructor | platform-model/app/src/main/java/platform/components/MPSoC.java:29-46 | a fresh graph holding the new MPSoC |
| PlatformMPSoC.MPSoC.AddProcessingSystemModule | platform-model/app/src/main/java/platform/components/MPSoC.java:48-76 | the new state and the outcome are those of the module step |
| PlatformMPSoC.MPSoC.AddOCM | platform-model/app/src/main/java/platform/components/MPSoC.java:79-109 | the new state and the outcome are those of the OCM step |
| PlatformMPSoC.MPSoC.AddOCMSwitch | platform-model/app/src/main/java/platform/components/MPSoC.java:111-152 | the new state and the outcome are those of the OCM-switch step |
| PlatformMPSoC.MPSoC.AddFPGA | platform-model/app/src/main/java/platform/components/MPSoC.java:154-156 | nothing changes |

## Left out

- Reading and writing files is not modelled: the model handler, the KGT
  visualiser, `FileWriter` and `System.out`. The printer and the solution
  parser return the path and the text they would write; `println` is an
  added `"\n"`.
- The grey-box (`Visualizable`) containment that makes the visual hierarchy
  is not modelled where it only affects drawing. The edge traits are kept.
- Floating point is not modelled. An instruction rate is either a
  reciprocal of an integer cycle count or a `real` rate, kept symbolic.
- Hash-map and hash-set iteration orders, and the viewer registry's order
  in the transformer, are parameters. `LinkedHashMap` insertion order is not
  modelled.
- PlatformMPSoC.AddOcmSwitchFacts: `AddOCMSwitch` calls `newVertex` a second
  time for the switch, with a time-division runtime
  (platform-model/.../MPSoC.java:122-123). This second call is left out,
  because its effect depends on the graph library, which is not part of
  this model.
- The clock-cycles property constant is used but not defined in the files
  modelled; the model names it `ClockCycles`.
- Applications.ApplicationBuilder.AddHWImplementation: the call in
  `ApplicationHandler.SequentialSDF` does not compile against the source.
  It passes five arguments, but `ApplicationBuilder` declares only the
  three-argument `AddHWImplementation`. It also uses `Units.CLOCK_CYCLE`
  and `Units.CLB`, which `Units` does not declare. The model calls the
  three-argument method and takes both constants to be 1. This gives 10
  clock cycles and area 110. The frequency and size arguments have no
  counterpart, so they are dropped.
- The `models` MPSoC uses `Units.MHZ` and `Units.GHZ`, which its `Units`
  class does not declare (it declares `MHz` and `GHz`). The model reads
  them as `MHz` and `GHz`. The `platform-model` MPSoC imports its own
  `platform.utils.Units`, which is not part of this model. It uses only
  `Units.MHZ`, read as 10^6. The constants-only files `Units`, `Paths`, `Requirements` and
  `Instructions` appear only as the values the core uses.
- Solutions.ByteCount: Java `long` overflow of the bit count is not
  modelled; integers are unbounded.
- Solutions.Line: a missing property on a viewer is modelled as a runtime
  exception, which is what the viewer's accessor throws.
- ModelsMPSoC.MPSoC.AddFPGA and PlatformMPSoC.MPSoC.AddFPGA: both bodies
  are empty in the source, so the model changes nothing.
- ApplicationHandlers.SequentialSDF is proved against a chain invariant
  and the final shape `SDFApplication`. It is not proved against a fold of
  the builder steps.
- FPGATransformer.Transform requires two distinct graph objects. It does
  not model a call that passes the same object twice.
- TransformerFacts.HWInstrsNameInjective: the implementation name of a
  module and actor pair is not injective across pairs. There is therefore
  no lemma counting the new processing modules, and earlier modules' core
  records are not proved to survive a later collision.
- TransformerFacts.TransformImplements: does not state the core record of
  each module `<L>_HW_Impl_<a>` in the final platform. That record is one
  core at 100 MHz offering the renamed instructions, and it is proved only
  for the pass that builds it (`TransformerFacts.PairPlatform`). A later
  pass whose implementation name collides would rebuild it. For the same
  reason there is no count of |hardware actors| × |modules| new processing
  modules.
- FPGATransformer.ActorPass: an accessor reading a missing property throws
  `MissingProperty`. The Java exception class belongs to the viewer library,
  which is not part of this model. A property of the wrong type is treated
  as missing.
- Printing.Printer.Raw: Java leaves the name and directory fields
  null until they are set. The model holds empty strings, which are never
  read before being set.
- ModelsMPSoC.MPSoC and PlatformMPSoC.MPSoC key their core records by core
  name. Java keys them by viewer object; both give the same entries.
- The unused `APU`/`RPU` fields of the MPSoC classes are not modelled:
  the platform-model class declares them and sets them to null, and the
  models class has them commented out.
- Graphs.NewVertex: creating a vertex under a name that already exists
  keeps the existing record, which later steps extend (traits, ports and
  properties merge). This is assumed to be the graph library's behaviour,
  which is not part of this model; `ModelsMPSoC.PsCoreStepKeeps` relies on
  it.
- PlatformMPSoC.AddOcmWellformed: without the OCM switch, `AddOCM` has
  already put the OCM record when the connection throws
  `NullPointerException`. The model keeps that record.
- Not part of this model: the command-line entry points (`App`,
  `PlatformHandler`), `Zynq`, `ToySDF`, `Application` and the rest of
  `ApplicationHandler`.
