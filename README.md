# KinectWithVRServer core, modelled in Dafny

The KinectWithVRServer program fuses the skeletons of several depth sensors
and publishes them, together with button, analog, text and imager outputs,
over VRPN. This project models the sequential core of the program:

- **The settings resolver.** Per-skeleton, per-sensor and voice-command
  options become lists of named output-server descriptors: tracker, button,
  analog, text and imager.
  - Names are deduplicated.
  - Channel and button numbers are kept duplicate-free.
  - Errors are collected in order.
  - Imager shapes come from a fixed resolution table.
  - The three validity checks are the predicates `Topology.IsServerNameValid`, `Topology.IsServerAnalogChannelValid` and `Topology.IsServerButtonNumberValid`. They are used by the registration contracts, and the lemmas about names are listed below.

  The resolver is written twice:
  - as pure fold functions (module `Topology`), about which the properties are proved;
  - as the methods of the class `Server.ServerCore`, which update the descriptor lists of a `MasterSettings` object step by step and are proved equal to those functions.
- **Skeleton ordering** (module `SkeletonSorting`). Tracked skeletons first, insertion-sorted in place by a distance key, reversed for the "farthest" modes. Untracked skeletons follow in their original order.
- **Proximity clustering** (module `Fusion`, method `ServerCore.FindSameSkeletons`). One pass over all sensors' skeletons with running cluster centres.
- **Snapshot replacement** (module `Snapshots`, method `ServerCore.UpdatePerKinectSkeletons`). The dequeue/re-enqueue rotation that replaces one sensor's snapshot in the merge buffer.
- **Joint mapping and lookups** (module `JointMapping`, `ServerCore.GetServerIDFromName`, `ServerCore.SendSkeletonVRPN`). The fixed joint-to-sensor-number table, the first-match server lookup, and the joint filter applied when a skeleton is sent.
- **The joint container** (module `KinectBase`). The 28-slot `SkeletonData` array with its checked setters; the `KinectSkeletonsData` snapshot and its comparer.
- **Start-up** (module `App`). The command-line loop and the launch decision.

Files:
- `wrappers.dfy`: `Option`, `Result`, `Outcome`.
- `geometry.dfy`: points over `real`.
- `kinect_base.dfy`
- `joint_mapping.dfy`
- `sorting.dfy`
- `fusion.dfy`
- `snapshots.dfy`
- `topology.dfy`
- `server_core.dfy`
- `app.dfy`

Two points where the program's own text and its behaviour part:
- **The validity flag.** The per-sensor parsers collect errors and clear the flag when one occurs. But each successful imager registration assigns the flag `true` outright (ServerCore.cs:2081, 2091, 2101, 2147, 2157, 2167, 2275, 2313, 2351), discarding an earlier error of the same sensor. The model reproduces this in `Topology.ImagerStep`, and `Topology.ImagerRegistrationResetsValidity` shows a case of it.
- **The server-name check.** Its comment (ServerCore.cs:1710) says it checks that a name is alphanumeric. The pattern at 1711 also accepts an alphanumeric name followed by one line feed. The registrations use the intended check; see Findings and the `Topology.RegisterTracker` line under Left out.

## Model

| member | source | states |
|---|---|---|
| Topology.IndexOfName | KinectWithVRServer/ServerCore.cs:1743-1749 | The index of the first descriptor with the name, or None exactly when no descriptor has it. |
| Topology.RegisterTracker | KinectWithVRServer/ServerCore.cs:1740-1760 | A valid, new name appends a tracker with 27 sensors; an existing name changes nothing; an invalid name gives exactly one error and changes nothing. |
| Topology.RegisterButton | KinectWithVRServer/ServerCore.cs:1763-1813 | Valid iff the name and the number are valid. An existing server gains the number once. A new server is appended, with an empty list when the number is invalid. At most one error. |
| Topology.AddChannels | KinectWithVRServer/ServerCore.cs:1887-1988 | Keeps the old channels. Adds every valid requested channel. There are no errors iff every request is valid. |
| Topology.RegisterAnalog | KinectWithVRServer/ServerCore.cs:1880-1996 | Valid iff the name and all channels are valid. The named server ends up holding every valid requested channel. |
| Topology.RegisterText | KinectWithVRServer/ServerCore.cs:1626-1653 | A valid, new name appends a text server; an existing name changes nothing; an invalid name is the only error. |
| Topology.RegisterImager | KinectWithVRServer/ServerCore.cs:2052-2116 | Registers iff the name is valid, not yet an imager, and the format is in the table. Otherwise nothing changes and there is exactly one error. |
| Topology.V1ColorShape | KinectWithVRServer/ServerCore.cs:2073-2110 | Only the three first-generation colour formats have a shape. Colour iff the format is not infrared. Every shape is a table entry. |
| Topology.V1DepthShape | KinectWithVRServer/ServerCore.cs:2139-2176 | Every defined depth format has a gray table shape. |
| Topology.ParseSkeleton | KinectWithVRServer/ServerCore.cs:1737-1867 | One skeleton slot: the lists only grow; valid iff no error. |
| Topology.ParseIndividualSkeletons | KinectWithVRServer/ServerCore.cs:1727-1871 | The slots in order: the lists only grow, and the result is valid iff no error. |
| Topology.ParseRawSkeleton | KinectWithVRServer/ServerCore.cs:1554-1567 | A networked sensor, or a sensor that sends no raw skeletons, changes nothing. |
| Topology.ParseVoiceCommand | KinectWithVRServer/ServerCore.cs:1574-1654 | A button command is exactly the button registration, a text command exactly the text registration, and any other type changes nothing, reports nothing and stays valid. Afterwards the command is served: a valid name has its server, and a valid button number is on it. |
| Topology.ImagerStep | KinectWithVRServer/ServerCore.cs:2073-2101 | When enabled, the running result becomes exactly "this imager registered", whatever came before. |
| Topology.AnalogStep | KinectWithVRServer/ServerCore.cs:1881-1995 | When enabled, the running result stays true iff it was true and no new error appeared. |
| Topology.ParseKinectV1 | KinectWithVRServer/ServerCore.cs:1872-2185 | Acceleration, audio, colour, depth in order. The lists only grow. A false result always comes with an error. |
| Topology.ParseKinectV2 | KinectWithVRServer/ServerCore.cs:2186-2363 | Audio, colour, depth, IR in order, with the same guarantees. |
| Topology.ParseSettings | KinectWithVRServer/ServerCore.cs:1539-1704 | The whole resolution from empty lists. A false result always comes with an error. |
| Topology.AddUniqueKeepsDistinct | KinectWithVRServer/ServerCore.cs:1775-1778 | Adding a number only when absent keeps the list duplicate-free and adds exactly that number. |
| Topology.AddChannelsWellFormed | KinectWithVRServer/ServerCore.cs:1887-1988 | Channel lists stay duplicate-free and in range. |
| Topology.RegisterTrackerWellFormed | KinectWithVRServer/ServerCore.cs:1743-1754 | Tracker registration keeps every list well formed: distinct names, valid names, 27 sensors. |
| Topology.RegisterButtonWellFormed | KinectWithVRServer/ServerCore.cs:1768-1806 | Button registration keeps distinct names and duplicate-free, in-range numbers. |
| Topology.RegisterAnalogWellFormed | KinectWithVRServer/ServerCore.cs:1887-1988 | Analog registration keeps distinct names and duplicate-free, in-range channels. |
| Topology.RegisterTextWellFormed | KinectWithVRServer/ServerCore.cs:1633-1647 | Text registration keeps distinct names. |
| Topology.RegisterImagerWellFormed | KinectWithVRServer/ServerCore.cs:2059-2173 | Imager registration keeps distinct names and table shapes. |
| Topology.ParseSettingsWellFormed | KinectWithVRServer/ServerCore.cs:1539-1704 | After resolution, each list has distinct valid names and duplicate-free in-range numbers; trackers have 27 sensors; imagers have table shapes. |
| Topology.ServedGrows | KinectWithVRServer/ServerCore.cs:1539-1704 | A later step never loses what an earlier one registered. |
| Topology.ParseSettingsServesAll | KinectWithVRServer/ServerCore.cs:1539-1704 | Every enabled option with a valid name ends with its server, and every valid number ends on that server. For an imager this also needs a format the sensor's table knows. This covers merged skeletons, raw skeletons, voice commands and sensor outputs. |
| Topology.ErrorMessageAppend | KinectWithVRServer/ServerCore.cs:1551-1703 | The message of a longer error list extends the message of its prefix: the message is only ever appended to. |
| Topology.ImagerRegistrationResetsValidity | KinectWithVRServer/ServerCore.cs:2081 | An invalid acceleration name followed by a valid colour imager: the result is true although an error is reported. |
| Topology.SharedButtonMerged | KinectWithVRServer/ServerCore.cs:1581-1600 | A grip and a voice command on the same button server and number give one server holding that number once. |
| Topology.TrailingLineFeedAccepted | KinectWithVRServer/ServerCore.cs:1711 | The pattern as written accepts `"Tracker0\n"`; the intended check rejects it. |
| Topology.AsWrittenAcceptsLineFeed | KinectWithVRServer/ServerCore.cs:1711 | Every intended-valid name, with or without one trailing line feed, passes the pattern as written. |
| Topology.ValidNameHasNoSeparator | KinectWithVRServer/ServerCore.cs:1705-1714 | A valid name holds only letters and digits, so no line feed or space. |
| Topology.IsServerNameValid | KinectWithVRServer/ServerCore.cs:1705-1714 | The intended name check, per the comment at 1710: non-empty, ASCII letters and digits only. A valid name therefore has no line feed and no space. |
| Topology.IsServerAnalogChannelValid | KinectWithVRServer/ServerCore.cs:1715-1720 | A channel is valid when `0 <= channel < MaxChannels`. So a valid channel is never negative, and no channel is valid when the capacity is zero. |
| Topology.IsServerButtonNumberValid | KinectWithVRServer/ServerCore.cs:1721-1726 | A button is valid when `0 <= button < MaxButtons`. So a valid button is never negative, and no button is valid when the capacity is zero. |
| Topology.NumberBoundaries | KinectWithVRServer/ServerCore.cs:1715-1726 | For both checks, 0 and the capacity minus one pass; -1 and the capacity itself fail. |
| Topology.ErrorText | KinectWithVRServer/ServerCore.cs:1597-2357 | Each error is rendered in the source's wording as one sentence ending in a full stop and CR LF, so the messages concatenate line by line. |
| Topology.IRImagerUsesDepthWording | KinectWithVRServer/ServerCore.cs:2338-2357 | The infrared imager's name errors use the depth imager's wording. |
| SkeletonSorting.SortSkeletons | KinectWithVRServer/ServerCore.cs:1063-1277 | The sorting method, proved equal to the sorting specification. It covers both overloads (1063-1277 and 1278-1489), which differ only in the element type. |
| SkeletonSorting.ShiftInsert | KinectWithVRServer/ServerCore.cs:1092-1100 | The shifting loop inserts element i into the sorted prefix and leaves the rest alone. |
| SkeletonSorting.InsertionSortInPlace | KinectWithVRServer/ServerCore.cs:1090-1101 | The in-place sort equals the insertion-sort specification. |
| SkeletonSorting.SortedSkeletonsUnchanged | KinectWithVRServer/ServerCore.cs:1065-1270 | `NoSort`, or a feedback mode without a feedback position, returns the input unchanged. |
| SkeletonSorting.SortedSkeletonsPermutation | KinectWithVRServer/ServerCore.cs:1063-1277 | The output is a permutation of the input: the same length and the same multiset. |
| SkeletonSorting.SortedSkeletonsTrackedFirst | KinectWithVRServer/ServerCore.cs:1072-1275 | When the list is reordered, tracked skeletons come first and the untracked ones follow in their original order. |
| SkeletonSorting.SortedSkeletonsOrdered | KinectWithVRServer/ServerCore.cs:1087-1260 | The tracked part is non-decreasing by key for Closest modes and non-increasing for Farthest modes. |
| SkeletonSorting.SortedSkeletonsStable | KinectWithVRServer/ServerCore.cs:1090-1106 | Equal keys keep their input order for Closest modes and reverse it for Farthest modes. |
| SkeletonSorting.InsertionSortMultiset | KinectWithVRServer/ServerCore.cs:1090-1101 | The insertion sort is a permutation. |
| SkeletonSorting.InsertionSortSorted | KinectWithVRServer/ServerCore.cs:1090-1101 | The insertion sort is non-decreasing. |
| SkeletonSorting.InsertionSortStable | KinectWithVRServer/ServerCore.cs:1095-1100 | The strict `<` shift condition makes the insertion sort stable. |
| SkeletonSorting.FilterSplitsMultiset | KinectWithVRServer/ServerCore.cs:1073-1085 | The tracked/untracked split loses and invents nothing. |
| SkeletonSorting.Key | KinectWithVRServer/ServerCore.cs:1095-1160 | The sort key is never negative. Its per-mode value is the definition itself: the absolute difference on one axis, or the squared distance in the Euclidean modes. |
| Fusion.PlaceSkeleton | KinectWithVRServer/ServerCore.cs:812-829 | The inner loop for one skeleton equals one placement step. |
| Fusion.PlaceSkeletons | KinectWithVRServer/ServerCore.cs:810-830 | The loop over one snapshot's skeletons extends the clustering of everything placed so far. |
| Fusion.PlaceSpec | KinectWithVRServer/ServerCore.cs:813-829 | A placement adds the skeleton to every near cluster and moves that cluster's centre with the member count before the addition; far clusters are unchanged. A new cluster, with that skeleton as its only member, is opened iff no centre is near. |
| Fusion.Cluster | KinectWithVRServer/ServerCore.cs:808-831 | Centres and clusters have equal length, and there are never more clusters than skeletons. |
| Fusion.ClustersNonEmpty | KinectWithVRServer/ServerCore.cs:824-829 | Every cluster has a member, and every member is an input skeleton. |
| Fusion.EverySkeletonClustered | KinectWithVRServer/ServerCore.cs:813-829 | Every input skeleton ends up in some cluster. |
| Fusion.NoSkeletonsNoClusters | KinectWithVRServer/ServerCore.cs:803-832 | Snapshots without skeletons give no clusters. |
| Fusion.MergeBoundary | KinectWithVRServer/ServerCore.cs:816 | The 0.3 threshold is strict: at 0.3 a second cluster opens; at 0.29 the skeleton joins. |
| Server.ServerCore.FindSameSkeletons | KinectWithVRServer/ServerCore.cs:803-832 | The merged list is the clustering of all snapshots' skeletons in buffer order. Only the merged list changes; the merge buffer and the feedback position stay. |
| Snapshots.ReplaceSnapshot | KinectWithVRServer/ServerCore.cs:660-684 | With at most one entry per sensor before, the result has exactly one entry of this sensor, the new one at the tail. Every other sensor's entries are kept with their multiplicities. |
| Snapshots.DrainRemovesEntry | KinectWithVRServer/ServerCore.cs:660-679 | The rotation loop removes the sensor's only entry and keeps the others. |
| Snapshots.DrainWithoutId | KinectWithVRServer/ServerCore.cs:660-679 | Without an entry of the sensor, the loop only rotates the queue. |
| Snapshots.DrainKeepsUnique | KinectWithVRServer/ServerCore.cs:660-679 | The loop never creates two entries of one sensor. |
| Server.ServerCore.UpdatePerKinectSkeletons | KinectWithVRServer/ServerCore.cs:641-687 | Without merging nothing changes. With merging, the queue is the drained old queue plus a fresh entry with the sensor's id, its index and the transformed skeletons; at most one entry per sensor is kept. Only the merge buffer changes; the merged list and the feedback position stay. |
| JointMapping.GetSkeletonSensorNumber | KinectWithVRServer/ServerCore.cs:881-1018 | Every sensor number is -1 or in 0..26, never 4 or 10. |
| JointMapping.SensorNumberRoundTrip | KinectWithVRServer/ServerCore.cs:881-1018 | The 25 listed joints get wire numbers that decode back to them; every other joint gets -1. |
| JointMapping.WireNumberRoundTrip | KinectWithVRServer/ServerCore.cs:881-1018 | Every number in {0..26} \ {4, 10} belongs to exactly one listed joint. |
| JointMapping.SensorNumberInjective | KinectWithVRServer/ServerCore.cs:881-1018 | No two listed joints share a number. |
| Server.FindServer | KinectWithVRServer/ServerCore.cs:1495-1501 | The lookup loop equals the first-index search. |
| Server.ServerCore.GetServerIDFromName | KinectWithVRServer/ServerCore.cs:1491-1535 | The first index with an equal name in the type's list, or null; always null for imagers. |
| Server.PoseReports | KinectWithVRServer/ServerCore.cs:1027-1038 | Exactly the joints that are not NotTracked are reported, with their sensor number (-1 for unmapped ones) and pose. |
| Server.ServerCore.SendSkeletonVRPN | KinectWithVRServer/ServerCore.cs:1020-1045 | With the tracker found, it reports the poses of all tracked joints in joint order. Otherwise it logs the fixed message and reports nothing. |
| Server.ServerCore.ParseSettings | KinectWithVRServer/ServerCore.cs:1539-1704 | The class method clears the five lists and then equals the resolution function: same lists, same errors, same flag. The lists it leaves are well formed. |
| Server.ServerCore.ParseIndividualSkeletons | KinectWithVRServer/ServerCore.cs:1727-1871 | Equals the slot fold, with the object's lists updated in place. |
| Server.ServerCore.ParseKinectV1Settings | KinectWithVRServer/ServerCore.cs:1872-2185 | Equals the first-generation parser, including the imager reset of the flag. |
| Server.ServerCore.ParseKinectV2Settings | KinectWithVRServer/ServerCore.cs:2186-2363 | Equals the second-generation parser. |
| Server.ServerCore.ParseKinectSettings | KinectWithVRServer/ServerCore.cs:1689-1700 | A sensor is dispatched on its generation; networked sensors contribute nothing. |
| Server.ServerCore.ParseRawSkeletonSettings | KinectWithVRServer/ServerCore.cs:1552-1568 | Equals the raw-skeleton fold. |
| Server.ServerCore.ParseVoiceCommandSettings | KinectWithVRServer/ServerCore.cs:1572-1655 | Equals the voice-command fold. |
| Server.ServerCore.ParseKinectListSettings | KinectWithVRServer/ServerCore.cs:1689-1700 | Equals the per-sensor fold. |
| Server.ServerCore.AddTrackerServer | KinectWithVRServer/ServerCore.cs:1740-1760 | The in-place tracker registration equals `RegisterTracker`. |
| Server.ServerCore.AddButtonServer | KinectWithVRServer/ServerCore.cs:1765-1812 | The in-place button registration equals `RegisterButton`. |
| Server.ServerCore.AddTextServer | KinectWithVRServer/ServerCore.cs:1630-1653 | The in-place text registration equals `RegisterText`. |
| Server.ServerCore.AddAnalogChannels | KinectWithVRServer/ServerCore.cs:1887-1988 | The channel loop equals `AddChannels`. It is valid iff no error. |
| Server.ServerCore.AddAnalogServer | KinectWithVRServer/ServerCore.cs:1883-1995 | The in-place analog registration equals `RegisterAnalog`. |
| Server.ServerCore.AddImagerServer | KinectWithVRServer/ServerCore.cs:2055-2115 | The in-place imager registration equals `RegisterImager`. |
| KinectBase.SkeletonData.constructor | KinectBase/HelperMethods.cs:90-104 | A new container has 28 slots. Slot i holds a joint of type i: NotTracked, Unknown, at the origin, with identity orientation. |
| KinectBase.SkeletonData.Count | KinectBase/HelperMethods.cs:106-109 | Count is 28. |
| KinectBase.SkeletonData.GetByType | KinectBase/HelperMethods.cs:111-113 | The typed getter returns the slot of that type, a joint of that type. |
| KinectBase.SkeletonData.GetByIndex | KinectBase/HelperMethods.cs:127-139 | The index getter succeeds iff `0 <= i < 28`, with slot i of type i. Otherwise it fails with IndexOutOfRangeException. |
| KinectBase.SkeletonData.SetByType | KinectBase/HelperMethods.cs:114-124 | It writes only that slot when the type matches. Otherwise it fails with ArgumentException and changes nothing. The slot-type invariant holds. |
| KinectBase.SkeletonData.SetByIndex | KinectBase/HelperMethods.cs:140-157 | It fails with IndexOutOfRangeException when out of range and with ArgumentException on a type mismatch, changing nothing in both cases. Otherwise it writes only slot i. |
| KinectBase.Ordinal | KinectBase/HelperMethods.cs:98 | The integer value of a joint type is below 28 and casts back to it. |
| KinectBase.KinectSkeletonsData.constructor | KinectBase/HelperMethods.cs:32-41 | The snapshot holds the given id and exactly n fresh, distinct default skeletons. |
| KinectBase.CompareByKinectID | KinectBase/HelperMethods.cs:59-62 | The comparison has the sign of the integer comparison of the two sensor indices. |
| KinectBase.CompareIsTotalPreorder | KinectBase/HelperMethods.cs:59-62 | The comparison is antisymmetric and transitive. |
| App.ParseArguments | KinectWithVRServer/App.xaml.cs:21-76 | The loop equals the order-independent reading of the switches. |
| App.SwitchesMonotone | KinectWithVRServer/App.xaml.cs:35-54 | Further arguments never clear verbose, auto-start, help or the new console. After `/nc` the parent console stays off. The file is settled by the first argument. |
| App.ConsolesExclusive | KinectWithVRServer/App.xaml.cs:35-43 | The parent and the new console are never both chosen. |
| App.SwitchCaseInsensitive | KinectWithVRServer/App.xaml.cs:35-52 | For every argument, each switch matches exactly its spellings: `-` or `/`, then the letters in any case (`/nC`, `-H`, `/?`). Nothing else matches. |
| App.StartupFileOnlyFirst | KinectWithVRServer/App.xaml.cs:72-75 | For every argument list, the file name is the first argument when that is no switch, and empty when it is one; later arguments never name the file. |
| App.StartMode | KinectWithVRServer/App.xaml.cs:78-114 | Help starts nothing. Otherwise a console switch runs the console server when a console is reached, and the window opens when there is no console switch. |
| App.HelpStartsNothing | KinectWithVRServer/App.xaml.cs:52-78 | A help switch anywhere means nothing is launched. |
| App.NewConsoleWins | KinectWithVRServer/App.xaml.cs:35-43 | With `/nc` anywhere, the console is a new one. |
| App.NoArgumentsOpenWindow | KinectWithVRServer/App.xaml.cs:108-112 | No arguments open the window with everything off. |

## Left out

- Threads, the run state, the update timer and the locks are concurrency, not sequential logic. The snapshot queue is modelled as a sequence with its sequential effect.
- The VRPN library is a foreign library: its connections, servers and their `Update`, `ReportPose` and `SendImage` calls. `SendSkeletonVRPN` returns the poses it would report instead of sending them.
- Logging, the clock (`DateTime.Now`, `utcTime`), the console API, the usage text and the sensor-library probes are I/O. The start-up decision takes "a console was reached" as a parameter.
- `MaxChannels` and `MaxButtons` of the VRPN servers are not part of this model. They are the parameters `maxChannels` and `maxButtons`.
- `HelperMethods.IncAverage` and the internals of `MergedSkeleton` are not part of this model:
  - the averaging is a function parameter `inc(centre, sample, priorCount)`;
  - a merged skeleton is its member list.
- `TransformSkeleton` of the sensor classes is not part of this model. It is a function parameter of `UpdatePerKinectSkeletons`.
- The sensor wrapper classes are not part of this model: their settings are plain records of the fields the resolver reads.
- The declaration of the `JointType` enum is not part of this model.
  - The 25 joint types of the sensor-number table are declared in table order, plus three placeholder members.
  - No proof depends on this order.
- Floating-point geometry is modelled over `real`. Distances are compared squared: `|d| < 0.3` becomes `d·d < 0.09`. The Euclidean sorting keys are squared distances, which order the skeletons as the distances do; the per-axis keys are absolute coordinate differences.
- Topology.RegisterTracker, RegisterButton, RegisterAnalog, RegisterText, RegisterImager use the intended name check `IsServerNameValid`. An alphanumeric name followed by one line feed, such as `"Tracker0\n"`, is rejected here. The source's pattern accepts it and registers the server (see Findings).
- C# `null` strings and lists are not modelled: every string and list is present.
- The error message string is modelled as a list of structured errors. `Topology.ErrorMessage` renders them with the source's wording and `\r\n` endings.
  - Each parser method returns its own errors for the caller to append, instead of appending to a shared `ref` string.
- Two parts of the class are written differently from the source:
  - Named helper methods split the source's long inline blocks, one per registration and one per option.
  - `FindSameSkeletons` builds the merged list in a local and assigns the field once at the end. No other code runs between.
- `ToLower` is modelled on ASCII letters only. No other character lower-cases to a switch letter, `-`, `/` or `?`, so the switch comparisons are unaffected.
- The `while (!found)` retry in the snapshot loop only matters when another thread empties the queue. Sequentially, the loop takes the head at its first attempt.
- The image byte-offset forwarding, the event subscriptions and the sensor callbacks are event plumbing over driver classes. Their source is not part of this model.

## Findings

| source | as written | input that shows it | evidently intended | confidence | as-written member | corrected member |
|---|---|---|---|---|---|---|
| KinectWithVRServer/ServerCore.cs:1711 | `Regex.IsMatch(serverName, @"^[a-zA-Z0-9]+$")`: in .NET, `$` also matches before a final line feed | `"Tracker0\n"` is accepted as a server name | only ASCII letters and digits, at least one | not executed | Topology.IsServerNameValidAsWritten, Topology.TrailingLineFeedAccepted | Topology.IsServerNameValid, Topology.ValidNameHasNoSeparator |
