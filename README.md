# Skrock-Tech site logic in Dafny

This project models the few pieces of the Skrock-Tech portfolio site that hold state or logic rather than layout. There are four of them:

- **Quantum Computing Simulator demo** (`QuantumSimulator`, in `quantum.dfy`):
  - the ordered gate circuit, with add, remove-by-id and reset;
  - one measurement slot per qubit, updated on each run tick;
  - the `2^n`-entry state vector;
  - the binary basis-state labels `|i⟩`.
- **NeuralOS demo** (`NeuralOS`, in `neural_os.dfy`):
  - the process table, where a new process gets id `length + 1`;
  - the one-second tick, which clamps the metrics to [0, 100], jitters the processes and keeps a bounded log;
  - the add, remove and reset controls.
- **Navigation bar** (`Navigation`, in `navigation.dfy`):
  - the hover animation, which rewrites the `characters` array of "SKROCK TECH" one slot per tick until it reads "HOPE TECH";
  - the revert when the hover leaves;
  - the light → dark → system theme cycle and its icon;
  - the `scrollY > 50` test.
- **Projects page** (`Projects`, in `projects.dfy`):
  - the fixed catalogue and category list;
  - the category filter and the status badge colour;
  - what a "Live Demo" click does (an action value: nothing, navigate in-app, or open a tab);
  - which code listing "View Code" shows.

Two shared modules support these:

- `Common` (`common.dfy`): `Option`, an order-preserving `Filter` (JavaScript's `Array.prototype.filter`) and `KeepLast` (`slice(-k)`).
- `Numerals` (`numerals.dfy`): `Number.prototype.toString(radix)` for radix 2 to 10, `String(x)` for integers and `padStart`, plus the parsers that read these back. The parsers give the round trips that make gate identifiers and basis labels injective.

Component state becomes classes whose methods change only the fields they name:

- `Simulator`, `NeuralOS` and `NavBar` are classes.
- The name morph keeps its in-place `array<string>` and its step counter.
- Each handler or interval firing is one method call.
- The pure expressions are functions, with lemmas relating them.

Every `Math.random()` draw is a parameter:

- a real, or a function from index to real when one draw is made per element;
- the measurement coin is `coin(i)`, and the amplitudes are `amplitude(i)`.

The clock is a parameter in two forms:

- `Date.now()` is a natural-number timestamp;
- `new Date().toISOString()` is a string.

`toFixed(1)` is a formatter function passed in.

The simulator demo page does no quantum mechanics and no validation:

- `addGate` accepts any qubit and control.
- `removeGate` of an unknown id silently changes nothing.
- `simulateCircuit` ignores the gates and returns `2^n` random numbers.
- Measurement results are independent coin flips.

The model states exactly this behaviour, in `SimulateIgnoresGates`, in `WithoutGate` on an absent id, and in `MeasureAll`.

## Model

| member | source | states |
|---|---|---|
| Common.Filter | src/pages/demos/quantum-simulator/index.tsx:72 | The kept elements all come from the input and pass the predicate. Every passing input element is kept, at most the input's length is returned, and an all-passing input is returned unchanged. |
| Common.FilterAppend | src/pages/demos/quantum-simulator/index.tsx:72 | Filtering commutes with concatenation. Together with the element conditions this pins the kept elements to their original relative order. |
| Common.FilterNone | src/pages/demos/neural-os/index.tsx:88 | Filtering with a predicate that every element fails gives the empty sequence. |
| Common.FilterDropsSome | src/pages/demos/neural-os/index.tsx:88 | If some element fails the predicate, the filtered sequence is strictly shorter. |
| Common.KeepLast | src/pages/demos/neural-os/index.tsx:63 | For k > 0, `slice(-k)` has length min(len, k) and consists of exactly the last entries of the input, in order. |
| Numerals.Pow2 | src/pages/demos/quantum-simulator/index.tsx:58 | `Math.pow(2, n)` is at least 1, so the state vector is never empty. |
| Numerals.ToBase | src/pages/demos/quantum-simulator/index.tsx:206 | `i.toString(b)` is a non-empty string of base-b digits. It starts with '0' exactly when i is 0, and it is a single digit exactly when i < b. |
| Numerals.FromToBase | src/pages/demos/quantum-simulator/index.tsx:206 | Reading the rendering of n back gives n. |
| Numerals.ToBaseInjective | src/pages/demos/quantum-simulator/index.tsx:206 | Two numbers have the same rendering if and only if they are equal. |
| Numerals.BinaryLength | src/pages/demos/quantum-simulator/index.tsx:206 | A number below 2^k has at most k binary digits. |
| Numerals.PadStart | src/pages/demos/quantum-simulator/index.tsx:206 | `padStart(len, c)` has length max(len, length of s). It ends with s and every character before s is c. |
| Numerals.FromBaseLeadingZeros | src/pages/demos/quantum-simulator/index.tsx:206 | Leading '0' padding does not change the value read. |
| Numerals.IntToDecimal | src/pages/demos/quantum-simulator/index.tsx:63 | `String(qubit)` is non-empty and starts with '-' exactly for negative values. |
| Numerals.DecimalRoundTrip | src/pages/demos/quantum-simulator/index.tsx:63 | The decimal rendering of any integer parses back to it. |
| QuantumSimulator.TypeName | src/pages/demos/quantum-simulator/index.tsx:9 | A gate type's name contains no '-', and `TypeOfName` reads it back as that type. |
| QuantumSimulator.TypeOfName | src/pages/demos/quantum-simulator/index.tsx:9 | Definition: the inverse of `TypeName`, stated in `TypeName`'s contract. |
| QuantumSimulator.GateId | src/pages/demos/quantum-simulator/index.tsx:63 | Definition of the id `${type}-${qubit}-${Date.now()}`; its properties are in `GateIdRoundTrip` and `GateIdInjective`. |
| QuantumSimulator.GateIdRoundTrip | src/pages/demos/quantum-simulator/index.tsx:63 | The identifier `type-qubit-timestamp` parses back to the gate type, the qubit and the millisecond it was built from. |
| QuantumSimulator.GateIdInjective | src/pages/demos/quantum-simulator/index.tsx:63 | Two gate identifiers are equal if and only if type, qubit and millisecond are all equal. |
| QuantumSimulator.KeepsGate | src/pages/demos/quantum-simulator/index.tsx:72 | Definition of the predicate `gate => gate.id !== gateId`; its properties are in `WithoutGate`. |
| QuantumSimulator.WithoutGate | src/pages/demos/quantum-simulator/index.tsx:71-73 | `removeGate` keeps only gates from the circuit whose id differs. It keeps every such gate, and an id no gate carries leaves the circuit unchanged. |
| QuantumSimulator.WithoutGateAppend | src/pages/demos/quantum-simulator/index.tsx:72 | Removal commutes with concatenation, so the surviving gates stay in their original order. |
| QuantumSimulator.SameMillisecondGatesVanishTogether | src/pages/demos/quantum-simulator/index.tsx:61-73 | Two gates with the same type and qubit added in one millisecond share an id. Removing one removes both. |
| QuantumSimulator.InitialMeasurements | src/pages/demos/quantum-simulator/index.tsx:29-34 | The initial measurements have numQubits slots. Slot i is for qubit i and has no result. |
| QuantumSimulator.CoinBit | src/pages/demos/quantum-simulator/index.tsx:47 | A slot's result is '1' exactly when its draw exceeds 0.5, and '0' otherwise. |
| QuantumSimulator.MeasureAll | src/pages/demos/quantum-simulator/index.tsx:45-48 | The tick's measurement map keeps the length and each slot's qubit, and gives every slot a result. The result is '1' exactly when that slot's draw exceeds 0.5. |
| QuantumSimulator.MeasureAllKeepsSlots | src/pages/demos/quantum-simulator/index.tsx:45-48 | A tick keeps the one-slot-per-qubit shape. |
| QuantumSimulator.SimulateCircuit | src/pages/demos/quantum-simulator/index.tsx:56-59 | `simulateCircuit` returns 2^numQubits entries, where entry i is the i-th draw. |
| QuantumSimulator.SimulateIgnoresGates | src/pages/demos/quantum-simulator/index.tsx:56-59 | The state vector does not depend on the circuit at all. |
| QuantumSimulator.OnRow | src/pages/demos/quantum-simulator/index.tsx:156 | Definition of the row test; its properties are in `RowGates` and `AppendedGateRows`. |
| QuantumSimulator.RowGates | src/pages/demos/quantum-simulator/index.tsx:155-156 | Row q shows exactly the circuit's gates whose target or control is q, in both directions. |
| QuantumSimulator.AppendedGateRows | src/pages/demos/quantum-simulator/index.tsx:155-156 | An appended gate lands at the right end of its target row and its control row, and leaves every other row unchanged. |
| QuantumSimulator.BasisLabel | src/pages/demos/quantum-simulator/index.tsx:206 | The label of basis index i is binary digits, padded to at least n characters, and reads back as i. |
| QuantumSimulator.BasisLabels | src/pages/demos/quantum-simulator/index.tsx:206 | For n >= 1 and i, j < 2^n, every label has exactly n digits, and two labels are equal if and only if the indices are. |
| QuantumSimulator.Simulator.constructor | src/pages/demos/quantum-simulator/index.tsx:21-25 | The page starts stopped, with 3 qubits, no gates, no measurements and no state vector. |
| QuantumSimulator.Simulator.InitMeasurements | src/pages/demos/quantum-simulator/index.tsx:29-34 | The mount effect sets numQubits fresh slots, slot i for qubit i with a null result. |
| QuantumSimulator.Simulator.ToggleRunning | src/pages/demos/quantum-simulator/index.tsx:107 | The Run/Stop button flips `isRunning`. |
| QuantumSimulator.Simulator.AddGate | src/pages/demos/quantum-simulator/index.tsx:61-69 | Exactly one gate is appended, with the given type, qubit, control and id `type-qubit-now`. The earlier gates are unchanged and in order. |
| QuantumSimulator.Simulator.RemoveGate | src/pages/demos/quantum-simulator/index.tsx:71-73 | The new circuit is `WithoutGate` of the old one: no gate with that id is left, and an unknown id changes nothing. |
| QuantumSimulator.Simulator.ResetCircuit | src/pages/demos/quantum-simulator/index.tsx:75-82 | The circuit and state vector are empty, and the measurements are fresh null slots, one per qubit. |
| QuantumSimulator.Simulator.RunTick | src/pages/demos/quantum-simulator/index.tsx:37-50 | One interval firing sets 2^n amplitudes and measures every slot, keeping the slot count and each slot's qubit. |
| NeuralOS.Clamp | src/pages/demos/neural-os/index.tsx:45-46 | `Math.min(100, Math.max(0, x))` lies in [0, 100]. It is x when x is in range, 0 below the range and 100 above it. |
| NeuralOS.TickMetrics | src/pages/demos/neural-os/index.tsx:44-47 | The tick's system cpu and memory are both in [0, 100]. |
| NeuralOS.TickMetricsStep | src/pages/demos/neural-os/index.tsx:44-47 | With draws in [0, 1), one tick moves cpu by at most 5 points and memory by at most 2.5. |
| NeuralOS.TickProcess | src/pages/demos/neural-os/index.tsx:52-54 | One process's jitter changes only cpu and memory, and both land in [0, 100]. |
| NeuralOS.TickProcesses | src/pages/demos/neural-os/index.tsx:51-55 | The table keeps its length and each process's id, name, status and priority. Every cpu and memory value is in [0, 100]. |
| NeuralOS.AppendBounded | src/pages/demos/neural-os/index.tsx:57-63 | The new log is exactly the last min(len, 9) earlier entries, in order, followed by the new entry, so at most 10. A short log is simply extended. |
| NeuralOS.LevelOf | src/pages/demos/neural-os/index.tsx:60 | The tick entry is a warning exactly when its draw exceeds 0.9, and otherwise info. It is never an error. |
| NeuralOS.MetricsMessage | src/pages/demos/neural-os/index.tsx:61 | Definition of the metrics log text, with `toFixed(1)` as a parameter; `Tick` uses it. |
| NeuralOS.NewProcess | src/pages/demos/neural-os/index.tsx:70-77 | The new process has id length + 1, status waiting and priority in 1..3. Its name is "Process " followed by the decimal rendering of the id, which reads back as the id. |
| NeuralOS.FindProcess | src/pages/demos/neural-os/index.tsx:87 | `find` returns nothing exactly when no process has the id. Otherwise it returns the first process that has it. |
| NeuralOS.KeepsProcess | src/pages/demos/neural-os/index.tsx:88 | Definition of the predicate `p => p.id !== id`; its properties are in `WithoutProcess`. |
| NeuralOS.WithoutProcess | src/pages/demos/neural-os/index.tsx:88 | The kept processes all come from the table and have a different id. Every other process is kept, and an absent id leaves the table unchanged. |
| NeuralOS.RemovalLoggedIffRemoved | src/pages/demos/neural-os/index.tsx:86-96 | A removal is logged (the find succeeds) if and only if the table actually shrinks. |
| NeuralOS.InitialProcesses | src/pages/demos/neural-os/index.tsx:29-33 | The start-up table holds ids 1, 2, 3 in order, and every figure in it is a percentage. |
| NeuralOS.NeuralOS.constructor | src/pages/demos/neural-os/index.tsx:24-37 | The demo starts stopped, with zero metrics, the three start-up processes and the two start-up log entries. |
| NeuralOS.NeuralOS.ToggleRunning | src/pages/demos/neural-os/index.tsx:121 | The Start/Stop button flips `isRunning`. |
| NeuralOS.NeuralOS.Tick | src/pages/demos/neural-os/index.tsx:39-64 | One tick sets the clamped metrics, jitters the processes, and appends an info or warning metrics entry after the last min(len, 9) earlier entries. All figures stay percentages. |
| NeuralOS.NeuralOS.AddProcess | src/pages/demos/neural-os/index.tsx:69-84 | One `NewProcess` with id length + 1 is appended, and a "New process added" entry names it. |
| NeuralOS.NeuralOS.RemoveProcess | src/pages/demos/neural-os/index.tsx:86-96 | Every process with the id is dropped and the rest keep their order. A "Process removed" entry naming the first match is appended exactly when there was a match. |
| NeuralOS.NeuralOS.Reset | src/pages/demos/neural-os/index.tsx:137-148 | The demo stops, the metrics are zeroed and the log holds the single "System reset" entry. The process table is not touched. |
| NeuralOS.RemoveFirstInitialProcess | src/pages/demos/neural-os/index.tsx:88 | Removing id 1 from the start-up table leaves processes 2 and 3, in order. |
| NeuralOS.DuplicateIdAfterRemoveAndAdd | src/pages/demos/neural-os/index.tsx:69-88 | From the start-up table, removing process 1 and then adding a process gives ids [2, 3, 3]. Ids assigned as length + 1 are not unique. |
| Navigation.MaxLength | src/components/Navigation.tsx:38 | Definition of `maxLength`; `MorphCompletes` proves it is 11. |
| Navigation.Split | src/components/Navigation.tsx:42 | Definition of `split('')`; `JoinSplit` is its inverse. |
| Navigation.Join | src/components/Navigation.tsx:48 | Definition of `join('')`; `JoinSplit` is its partner. |
| Navigation.StepPart | src/components/Navigation.tsx:47 | Definition of `targetName[i] \|\| ''`; its effect is stated by `MorphShows` and `NavBar.MorphTick`. |
| Navigation.JoinSplit | src/components/Navigation.tsx:42-48 | `s.split('').join('')` is s. |
| Navigation.MorphParts | src/components/Navigation.tsx:42-47 | The character slots after k steps still number as many as the initial name's characters. |
| Navigation.MorphShows | src/components/Navigation.tsx:42-49 | After k steps the displayed name is the first min(k, 9) characters of "HOPE TECH" followed by "SKROCK TECH" from position k on. |
| Navigation.MorphCompletes | src/components/Navigation.tsx:36-53 | `maxLength` is 11. After all 11 steps "HOPE TECH" shows, and before any step "SKROCK TECH" shows. |
| Navigation.CycleTheme | src/components/Navigation.tsx:67-71 | A click takes light to dark, dark to system and system to light, so it always changes the theme. |
| Navigation.CycleThemeOrbit | src/components/Navigation.tsx:67-71 | Three clicks return to the starting theme, visiting all three themes on the way. |
| Navigation.ThemeIcon | src/components/Navigation.tsx:73-77 | The icon is a sun exactly for light and a moon exactly for dark, so a laptop otherwise. |
| Navigation.ScrolledPast | src/components/Navigation.tsx:27 | Definition of the `scrollY > 50` test; `NavBar.HandleScroll` states it. |
| Navigation.NavBar.constructor | src/components/Navigation.tsx:10-13 | The bar starts unscrolled and not hovered, showing "SKROCK TECH". |
| Navigation.NavBar.HandleScroll | src/components/Navigation.tsx:26-27 | `isScrolled` holds if and only if `scrollY > 50`. Nothing else changes. |
| Navigation.NavBar.MouseEnter | src/components/Navigation.tsx:41-45 | Hovering starts a fresh split of the initial name with counter 0 and a running interval. Entering again while already hovering changes nothing. |
| Navigation.NavBar.MouseLeave | src/components/Navigation.tsx:55-58 | Leaving stops the interval and shows "SKROCK TECH" at once. |
| Navigation.NavBar.MorphTick | src/components/Navigation.tsx:45-53 | A step below 11 rewrites only `characters[i]`, to the target's character or ''. It advances i and shows the partially morphed name. At 11 the interval clears and nothing else changes. |
| Navigation.NavBar.RunMorph | src/components/Navigation.tsx:45-53 | Letting the interval run ends after 11 - i + 1 firings, with step 11 and "HOPE TECH" displayed. |
| Projects.Categories | src/pages/Projects.tsx:69 | Definition of the category list; its properties are in `EmptyOnlyOutsideCategories`. |
| Projects.Catalogue | src/pages/Projects.tsx:71-177 | Definition of the catalogue data; its properties are in `DemoLinks`, `StatusColorsDistinct` and `ViewCodeHasListing`. |
| Projects.InCategory | src/pages/Projects.tsx:274 | Definition of the filter predicate; its properties are in `FilteredProjects`. |
| Projects.FilteredProjects | src/pages/Projects.tsx:272-274 | "All" gives the whole catalogue in order. Any other filter gives exactly the projects of that category, in both directions. |
| Projects.EmptyOnlyOutsideCategories | src/pages/Projects.tsx:1032 | The "No projects found" panel shows if and only if the filter is not in the category list (line 69). So for the buttons' filters (line 868) it never shows. |
| Projects.StatusColor | src/pages/Projects.tsx:276-284 | The badge is gray exactly for a status other than Live, Development, Beta and Private. |
| Projects.StatusColorsDistinct | src/pages/Projects.tsx:276-284 | The four known statuses get four different colours, and every catalogue entry has a known one. |
| Projects.AppRoutes | src/App.tsx:39-48 | Definition of the application's routes; `DemoLinks` proves every demo link names one. |
| Projects.StartsWith | src/pages/Projects.tsx:290 | Definition of `url.startsWith(prefix)`; its properties are in `ExternalLink`. |
| Projects.Contains | src/pages/Projects.tsx:296 | Definition of `url.includes(part)`; its properties are in `ExternalLink`. |
| Projects.ExternalLink | src/pages/Projects.tsx:286-303 | A null or empty link does nothing, a link starting with '/' navigates in-app to that path, and every other link opens that URL in a new tab, GitHub or not. |
| Projects.DemoLinks | src/pages/Projects.tsx:71-177 | A demo link is missing exactly for private projects. Every non-private card's "Live Demo" navigates to a route the application defines. |
| Projects.ListedTitles | src/pages/Projects.tsx:306-622 | Definition of the titles with a listing; its properties are in `ProjectCode` and `ViewCodeHasListing`. |
| Projects.ProjectCode | src/pages/Projects.tsx:305-670 | A title without a listing gets the TypeScript placeholder sample. A title with one gets its own listing. |
| Projects.ViewCodeHasListing | src/pages/Projects.tsx:1000-1024 | Every card that offers "View Code" has its own listing. Of the catalogue, only "Open Source UI Library" would get the placeholder. |

## Left out

- Quantum mechanics (amplitudes, gate unitaries, Born-rule measurement, collapse): the page does none of it.
- Timers, effects and re-rendering (`setInterval`, `clearInterval`, the 3000/11 ms step, React state batching): each handler and each interval firing is one atomic method call. The run ticks of the simulator and of NeuralOS require `isRunning`, because their interval exists only then.
- `Math.random()`, `Date.now()`, `new Date().toISOString()` and `toFixed(1)`: these are parameters, because they are clocks, randomness and floating-point formatting.
- JavaScript numbers: metrics are Dafny reals and qubits are integers in the model. Non-integer or `-0` qubits, and floating-point rounding in the clamps, are not modelled.
- Numerals.IntToDecimal: JavaScript writes integers of magnitude 10^21 or more in exponent notation, which is not modelled. The page's qubit indices are far below that.
- QuantumSimulator.Simulator: `numQubits` is fixed at 3 because the page never calls `setNumQubits`. `selectedGate` and the gate palette are left out, because they only choose the argument of `addGate`. Every render-only field (amplitude bars, `toFixed(4)`) is left out too.
- QuantumSimulator.Simulator.RunTick: in the source the interval closure reads the `measurements` of its render, while the model reads the current field. With one firing per render these agree.
- Navigation: the theme is a three-valued datatype because `ThemeProvider` is not part of this model. Its "anything else" branches are the `System` case. The mobile menu, nav items, active-link styling and framer-motion are left out as presentational.
- Navigation.NavBar.MouseEnter: the effect cleanup on a hover change is folded into `MouseLeave`, which stops the interval. The separate interval handle is left out.
- Projects: descriptions, images, technologies, feature and achievement lists, and partners are display-only and are left out. The code listings' texts are represented as `Listing(title)` rather than copied. The `navigate` and `window.open` side effects become `LinkAction` values.
- Projects.FilteredProjects: its own contract states membership in both directions. Catalogue order follows from its definition through `Filter`, and is stated for concatenations by `Common.FilterAppend`, not in that contract.
- Projects.StatusColor: its contract states the gray case as an if-and-only-if. The four other colours are stated only as pairwise distinct, by `Projects.StatusColorsDistinct`.
- The contact form and its mail relay, the toasts, and the other demo pages and presentational files are outside these four components.
