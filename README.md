# Traffic state estimation from floating-car data — a Dafny model

This project models the core of a traffic state estimation add-on for the
Eclipse MOSAIC simulator. It covers the add-on's three parts.

- **The vehicle side** is `FxdTransmitterApp`.
  - Every vehicle collects floating-car records into a time-keyed buffer, at most once per collection interval.
  - Each record holds a time stamp, a position, a connection, a speed, an offset along the connection and a heading.
  - The vehicle sends the whole buffer to the server as one V2X update once its oldest record is a transmission interval old.
- **The server side** is `FxdKernel` with its processors.
  - The kernel buffers each sender's records and scans the connections they lie on.
  - It cuts every completed connection traversal off the buffer and hands it to the traversal-based processors.
  - It drives the time-based processors through scheduled events and removes senders that have gone silent.
  - The `SpatioTemporalProcessor` turns a traversal into temporal, spatial and naive mean speeds, plus the relative traffic status metric (RTSM) of Yoon et al.
  - The `ThresholdProcessor` derives each connection's temporal and spatial speed thresholds from all stored traversals. It uses a red-light heuristic to do so.
  - The `FcdWriterProcessor` buffers raw records for storage.
  - The server application completes the configured processor lists at start-up.
- **The offline evaluation** is `evaluation/lib/utils.py`.
  - It resamples per-edge time series in pandas.
  - Groups are aggregated into fixed windows, with a sample count added.
  - Tables are optionally reindexed to every second of the day and gap-filled within a limit.
  - A time-stamp column is added, an optional rolling mean applied, and the rows clipped to an hour range.
  - All of this is done edge by edge, in ascending connection order.

Modules, one per component:

| file | module | models |
|---|---|---|
| `wrappers.dfy` | `Wrappers` | `Option` (a nullable reference or missing value), `Result` (an operation that may throw) |
| `sorted_map.dfy` | `SortedMaps` | `TreeMap<Long, V>` as a key-sorted entry sequence, with `put` and `putAll` |
| `records.dfy` | `Records` | `FxdRecord`, `FcdRecord`, the record builders, and the record size estimate |
| `messages.dfy` | `Messages` | `FxdUpdateMessage` (and its copy `FxdUpdate`), the update builder, and the message length |
| `traversals.dfy` | `Traversals` | the route scan and the cutting of a record stream into traversals |
| `time_based_processor.dfy` | `TimeBasedProcessors` | the trigger clock of a time-based processor |
| `kernel.dfy` | `Kernel` | `FxdKernel` as a class: buffers, look-back, processor registry, events, expiry |
| `polyline.dfy` | `Polylines` | `ScenarioDatabaseHelper.calcLengthByNodes` |
| `rtsm.dfy` | `TrafficMetrics` | `SpatioTemporalTrafficMetric` |
| `spatio_temporal.dfy` | `SpatioTemporalProcessors` | `SpatioTemporalProcessor` |
| `threshold.dfy` | `ThresholdProcessors` | `ThresholdProcessor` |
| `fcd_writer.dfy` | `FcdWriters` | `FcdWriterProcessor` |
| `transmitter.dfy` | `Transmitters` | `FxdTransmitterApp` |
| `server_app.dfy` | `ServerApps` | `TseServerApp` (and its copy `TrafficStateEstimationServerApp`) |
| `resampling.dfy` | `Resampling` | `resample_speed_data`, `resample_edge_data`, `_finalize_resampling` |
| `per_edge.dfy` | `PerEdgeResampling` | `_resample_data_per_edge` and its three wrappers |

How the source's forms are modelled:

- **Mutable Java classes** are Dafny classes whose methods change their fields.
  - The kernel, the processors, the transmitter, the builders and the server configuration are modelled this way.
  - Each method is proved against a specification function of the old state.
- **Loops** are `while` loops with invariants. This covers the kernel's traversal loop, its scans over senders and processors, the spline input arrays, the sampling loop of the spatial mean speed, the polyline length, the RTSM recomputation and the per-edge loop.
- **Foreign code is a parameter or an outbox.**
  - Splines, geodesic distance, azimuth, percentiles and connection lengths are function parameters.
  - The event manager, the cell module, the traversal-based processors and the storage are ordered outboxes of calls.
- **The pandas code is pure functions** over a `Table` of rows. Each row has a time in whole seconds and one cell per column; a cell is missing, a number or a text.

Paths below are relative to the repository root.

## Model

| member | source | states |
|---|---|---|
| SortedMaps.Put | src/main/java/com/dcaiti/mosaic/app/fxd/FxdTransmitterApp.java:97-109 | Putting a key keeps the entries key-sorted. The abstract map gets that key updated, so an existing key is replaced. |
| SortedMaps.PutAll | src/main/java/com/dcaiti/mosaic/app/fxd/messages/AbstractUpdateMessageBuilder.java:49-52 | putAll keeps the entries sorted. The abstract map is the union in which the given entries win. |
| SortedMaps.PutAllAbove | src/main/java/com/dcaiti/mosaic/app/tse/FxdKernel.java:221-228 | Putting entries newer than every buffered one appends them in order. |
| SortedMaps.KeysBounded | src/main/java/com/dcaiti/mosaic/app/fxd/FxdTransmitterApp.java:111-118 | firstKey and lastKey are the least and greatest keys. |
| SortedMaps.ToMapKeys | src/main/java/com/dcaiti/mosaic/app/fxd/messages/FxdUpdateMessage.java:51-54 | Every key of the map is the key of an entry. |
| Records.BaseRecordSize | src/main/java/com/dcaiti/mosaic/app/fcd/data/FxdRecord.java:111-118 | The base record size is the constant 62 bytes. |
| Records.RecordSizeAsWritten | src/main/java/com/dcaiti/mosaic/app/fcd/data/FcdRecord.java:71-73 | The size throws exactly when the perception list is null. Otherwise it is at least the base size. |
| Records.RecordSize | src/main/java/com/dcaiti/mosaic/app/fcd/data/FcdRecord.java:71-73 | The corrected size is the base size plus a whole number of perceived-vehicle entries. It equals the base size exactly when nothing is perceived. |
| Records.RecordSizeAgrees | src/main/java/com/dcaiti/mosaic/app/fcd/data/FcdRecord.java:71-73 | Wherever the size as written is defined, the corrected size agrees with it. Where it throws, the corrected size is the base size. |
| Records.DefaultRecordSizeFails | src/main/java/com/dcaiti/mosaic/app/fcd/data/FcdRecord.java:79-81 | A record built with the default perception throws in the written size and has size 62 in the corrected one. |
| Records.RecordBuilder.constructor | src/main/java/com/dcaiti/mosaic/app/fcd/data/AbstractRecordBuilder.java:40-44 | The minimal builder has time, position and connection set. Speed, offset and heading are 0 and perception is null. |
| Records.RecordBuilder.FromRecord | src/main/java/com/dcaiti/mosaic/app/fcd/data/AbstractRecordBuilder.java:51-58 | The copy builder holds every field of the record, perception included. |
| Records.RecordBuilder.WithOffset | src/main/java/com/dcaiti/mosaic/app/fcd/data/AbstractRecordBuilder.java:61-64 | Sets the offset only and returns the same builder. |
| Records.RecordBuilder.WithSpeed | src/main/java/com/dcaiti/mosaic/app/fcd/data/AbstractRecordBuilder.java:67-70 | Sets the speed only and returns the same builder. |
| Records.RecordBuilder.WithHeading | src/main/java/com/dcaiti/mosaic/app/fcd/data/AbstractRecordBuilder.java:73-76 | Sets the heading only and returns the same builder. |
| Records.RecordBuilder.WithPerceivedVehicles | src/main/java/com/dcaiti/mosaic/app/fcd/data/FcdRecord.java:88-91 | Sets the perception list only and returns the same builder. |
| Records.RecordBuilder.Build | src/main/java/com/dcaiti/mosaic/app/fcd/data/AbstractRecordBuilder.java:82-84 | The built record carries every field of the builder. |
| Records.CopyRecord | src/main/java/com/dcaiti/mosaic/app/fcd/data/FcdRecord.java:83-86 | Round trip: building from a copy builder gives back the record. |
| Records.BuildCollectedRecord | src/main/java/com/dcaiti/mosaic/app/fxd/FxdTransmitterApp.java:97-109 | The transmitter's builder chain yields the record with exactly the given fields. |
| Messages.SizeSumAppend | src/main/java/com/dcaiti/mosaic/app/fxd/messages/FxdUpdateMessage.java:70-75 | The record size sum splits over concatenation. |
| Messages.MessageLength | src/main/java/com/dcaiti/mosaic/app/fxd/messages/FxdUpdateMessage.java:70-75 | The message length is at least the header, time stamp and flag bytes plus the base size per record. |
| Messages.MessageLengthAsWritten | src/main/java/com/dcaiti/mosaic/app/fxd/messages/FxdUpdateMessage.java:70-75 | The length as written throws exactly when some record has a null perception list. Otherwise it equals the corrected length. |
| Messages.SizeSumAsWritten | src/main/java/com/dcaiti/mosaic/app/fxd/messages/FxdUpdateMessage.java:70-75 | The record size sum throws exactly when some record has a null perception list. Otherwise it is the corrected sum. |
| Messages.PayLoad | src/main/java/com/dcaiti/mosaic/app/fxd/messages/FxdUpdateMessage.java:62-64 | The payload is as long as the message length, and at least 19 bytes. |
| Messages.MessageLengthAppend | src/main/java/com/dcaiti/mosaic/app/fxd/messages/FxdUpdateMessage.java:70-75 | Appending records adds exactly their sizes to the message length. |
| Messages.UpdateBuilder.constructor | src/main/java/com/dcaiti/mosaic/app/fxd/messages/AbstractUpdateMessageBuilder.java:43-46 | A fresh builder has the routing and time stamp, no records, and is not final. |
| Messages.UpdateBuilder.AddRecords | src/main/java/com/dcaiti/mosaic/app/fxd/messages/AbstractUpdateMessageBuilder.java:49-52 | Records are merged by putAll, so the key set becomes the union and the given records win. The flag is unchanged. |
| Messages.UpdateBuilder.IsFinal | src/main/java/com/dcaiti/mosaic/app/fxd/messages/AbstractUpdateMessageBuilder.java:55-58 | Sets the final flag and keeps the records. |
| Messages.UpdateBuilder.Build | src/main/java/com/dcaiti/mosaic/app/fxd/messages/AbstractUpdateMessageBuilder.java:64-66 | The message carries the builder's routing, time, sorted records and flag. |
| Messages.BuildUpdate | src/main/java/com/dcaiti/mosaic/app/fxd/messages/FxdUpdateMessage.java:40-45 | A builder given one batch builds a message with exactly that batch. It is final only when asked. |
| Traversals.ExtendNoAdjacentRepeats | src/main/java/com/dcaiti/mosaic/app/tse/FxdKernel.java:177-191 | The connection scan never puts the same connection twice in a row. |
| Traversals.ExtendAppend | src/main/java/com/dcaiti/mosaic/app/tse/FxdKernel.java:177-191 | Scanning two batches one after the other is scanning their concatenation. |
| Traversals.ExtendPrefix | src/main/java/com/dcaiti/mosaic/app/tse/FxdKernel.java:177-191 | The scan depends only on the route's last entry. |
| Traversals.ExtendSame | src/main/java/com/dcaiti/mosaic/app/tse/FxdKernel.java:177-191 | Records on the current connection add nothing to the route. |
| Traversals.RunFacts | src/main/java/com/dcaiti/mosaic/app/tse/FxdKernel.java:201-214 | The run is exactly the records before the first change of connection. |
| Traversals.RouteSplit | src/main/java/com/dcaiti/mosaic/app/tse/FxdKernel.java:157-168 | A route is the first record's connection followed by the route of the records after the run. |
| Traversals.RouteLength | src/main/java/com/dcaiti/mosaic/app/tse/FxdKernel.java:162 | The route has more than one entry exactly when the records do not all lie on one connection. |
| Traversals.CutRest | src/main/java/com/dcaiti/mosaic/app/tse/FxdKernel.java:157-168 | Cutting never consumes all of a non-empty buffer. What is left lies on one connection. |
| Traversals.CutKeepsRecords | src/main/java/com/dcaiti/mosaic/app/tse/FxdKernel.java:201-214 | The traversals' records followed by the rest are the buffered records, so nothing is lost or reordered. |
| Traversals.RunTraversalWellFormed | src/main/java/com/dcaiti/mosaic/app/tse/FxdKernel.java:201-214 | A cut traversal is a non-empty run on its connection. Its previous record is the look-back and its following record is the next one. |
| Traversals.CutTraversalsWellFormed | src/main/java/com/dcaiti/mosaic/app/tse/FxdKernel.java:201-214 | Every cut traversal is well formed. Each one's previous record is the last record of the one before. |
| Traversals.CutFollowsRoute | src/main/java/com/dcaiti/mosaic/app/tse/FxdKernel.java:157-168 | One traversal is cut per route entry but the last, on that entry's connection, in route order. |
| Traversals.RouteOfMerge | src/main/java/com/dcaiti/mosaic/app/tse/FxdKernel.java:177-191 | Newer records extend the route as scanning the whole merged buffer would. |
| TimeBasedProcessors.TimeBasedProcessor.constructor | src/main/java/com/dcaiti/mosaic/app/tse/processors/TimeBasedProcessor.java:41-49 | A processor starts with its interval and both trigger times 0. |
| TimeBasedProcessors.TimeBasedProcessor.Initialize | src/main/java/com/dcaiti/mosaic/app/tse/processors/TimeBasedProcessor.java:51-55 | initialize resets both trigger times to 0. |
| TimeBasedProcessors.TimeBasedProcessor.GetAndIncrementNextTriggerTime | src/main/java/com/dcaiti/mosaic/app/tse/processors/TimeBasedProcessor.java:57-60 | The next time becomes the previous one, moves on by one interval and is returned. |
| TimeBasedProcessors.TimeBasedProcessor.GetPreviousTriggerTime | src/main/java/com/dcaiti/mosaic/app/tse/processors/TimeBasedProcessor.java:62-64 | Returns the previous trigger time. |
| TimeBasedProcessors.AdvanceFromStart | src/main/java/com/dcaiti/mosaic/app/tse/processors/TimeBasedProcessor.java:51-60 | After initialize and k steps the times are k and k - 1 intervals. |
| TimeBasedProcessors.AdvanceTimesSpacing | src/main/java/com/dcaiti/mosaic/app/tse/processors/TimeBasedProcessor.java:57-60 | Successive trigger times are one interval apart. |
| Kernel.FxdKernel.constructor | src/main/java/com/dcaiti/mosaic/app/tse/FxdKernel.java:104-127 | Registers the valid processors and starts with empty buffers. Schedules every registered processor, then the first removal at the removal interval, with the bound at the expiration time. Establishes the kernel invariant. |
| Kernel.Registry | src/main/java/com/dcaiti/mosaic/app/tse/FxdKernel.java:111-118 | Every registered processor sits under its own identifier and has a non-negative interval. Every valid configured processor is registered unless a later one takes its identifier. |
| Kernel.RegistryFromList | src/main/java/com/dcaiti/mosaic/app/tse/FxdKernel.java:111-118 | Every registered processor comes from the configured list. |
| Kernel.RegisterProcessors | src/main/java/com/dcaiti/mosaic/app/tse/FxdKernel.java:113-117 | The registry loop builds exactly `Registry` of the list. |
| Kernel.FxdKernel.InitializeProcessors | src/main/java/com/dcaiti/mosaic/app/tse/FxdKernel.java:123 | Every registered processor is initialised. |
| Kernel.FxdKernel.ScheduleProcessors | src/main/java/com/dcaiti/mosaic/app/tse/FxdKernel.java:125 | Each registered processor is scheduled at one interval. Only processor events are added. |
| Kernel.FxdKernel.ScheduleEventForProcessor | src/main/java/com/dcaiti/mosaic/app/tse/FxdKernel.java:250-253 | Steps the processor's clock and schedules its event at the new next time. |
| Kernel.FxdKernel.ScheduleUnitRemoval | src/main/java/com/dcaiti/mosaic/app/tse/FxdKernel.java:274-279 | Advances the removal time and the bound by their intervals and schedules the removal at the new removal time. |
| Kernel.ScanConnections | src/main/java/com/dcaiti/mosaic/app/tse/FxdKernel.java:177-191 | The scan loop computes `Extend` of the route with the records' connections. |
| Kernel.FxdKernel.ExtractTraversedConnections | src/main/java/com/dcaiti/mosaic/app/tse/FxdKernel.java:177-191 | The sender's route becomes the scan of its old route, or of an empty one, with the new records. Nothing else changes. |
| Kernel.FxdKernel.EnqueueRecords | src/main/java/com/dcaiti/mosaic/app/tse/FxdKernel.java:221-228 | The sender's buffer becomes the putAll of its old buffer, or of an empty one, with the new records. |
| Kernel.FxdKernel.ExtractTraversal | src/main/java/com/dcaiti/mosaic/app/tse/FxdKernel.java:201-214 | Removes the leading run and returns it as a traversal with the look-back and the next record. Stores the run's last record as the look-back. |
| Kernel.FxdKernel.HandOnFirstTraversal | src/main/java/com/dcaiti/mosaic/app/tse/FxdKernel.java:162-167 | One loop turn: the first route entry's traversal is cut off and handed on, and the entry is dropped. |
| Kernel.FxdKernel.HandOnCompletedTraversals | src/main/java/com/dcaiti/mosaic/app/tse/FxdKernel.java:162-167 | The loop hands on exactly the traversals `Cut` yields, in order, and leaves the rest of the records. |
| Kernel.Traverse | src/main/java/com/dcaiti/mosaic/app/tse/FxdKernel.java:157-168 | After an update the sender keeps a non-empty, sorted buffer on a single connection, and its route is that connection. |
| Kernel.TraverseKeepsRecords | src/main/java/com/dcaiti/mosaic/app/tse/FxdKernel.java:157-168 | The records handed on, followed by those kept, are the old buffer followed by the new records. |
| Kernel.TraverseFollowsRoute | src/main/java/com/dcaiti/mosaic/app/tse/FxdKernel.java:157-168 | Traversals are handed on one per completed route entry, in route order. Each is well formed and linked to the one before. |
| Kernel.MergedRoute | src/main/java/com/dcaiti/mosaic/app/tse/FxdKernel.java:159-160 | The scanned route of a valid sender is the route of its merged records. |
| Kernel.FxdKernel.ProcessUpdateForTraversals | src/main/java/com/dcaiti/mosaic/app/tse/FxdKernel.java:157-168 | The buffers, look-back and outbox become what `Traverse` describes. The kernel invariant is kept. |
| Kernel.FxdKernel.ProcessUpdate | src/main/java/com/dcaiti/mosaic/app/tse/FxdKernel.java:144-155 | The update is handed to every time-based processor and processed for traversals. Raw records are stored when configured. A final update makes the kernel forget the sender. The invariant is kept. |
| Kernel.UpdateProcessedByParts | src/main/java/com/dcaiti/mosaic/app/tse/FxdKernel.java:144-155 | Traversal processing, raw storage and forgetting a finished sender together make up the handling of an update. |
| Kernel.ExpiredSenders | src/main/java/com/dcaiti/mosaic/app/tse/FxdKernel.java:260-272 | The expired senders are buffered senders. |
| Kernel.CollectExpired | src/main/java/com/dcaiti/mosaic/app/tse/FxdKernel.java:261-267 | The scan collects exactly the senders whose newest record is older than the bound. |
| Kernel.ExpiredMeansAllOlder | src/main/java/com/dcaiti/mosaic/app/tse/FxdKernel.java:260-272 | A sender is expired exactly when all its buffered records are older than the bound. |
| Kernel.FxdKernel.TriggerExpiredUnitRemoval | src/main/java/com/dcaiti/mosaic/app/tse/FxdKernel.java:260-272 | Removes the buffers and routes of exactly the expired senders and keeps the look-back. The invariant is kept. |
| Kernel.FxdKernel.ProcessEvent | src/main/java/com/dcaiti/mosaic/app/tse/FxdKernel.java:231-248 | A removal event removes the expired senders and schedules nothing. A registered processor's event triggers it and schedules its next one. Other events are ignored. |
| Kernel.RemovalAsWrittenDropsActiveSender | src/main/java/com/dcaiti/mosaic/app/tse/FxdKernel.java:231-248 | With the default configuration, the only removal event drops a sender whose newest record is one minute old. |
| Kernel.FxdKernel.ProcessExpiryEventCorrected | src/main/java/com/dcaiti/mosaic/app/tse/FxdKernel.java:260-279 | The corrected removal uses the bound of the event time minus the expiration time and schedules the next removal. |
| Kernel.CorrectedRemovalKeepsActive | src/main/java/com/dcaiti/mosaic/app/tse/FxdKernel.java:260-272 | With the corrected bound, a sender stays exactly when it has a record within the expiration time before the event. |
| Kernel.FxdKernel.Shutdown | src/main/java/com/dcaiti/mosaic/app/tse/FxdKernel.java:309-315 | Shuts the processors down and clears the record and connection buffers. The look-back stays. |
| Polylines.CalcLengthByNodes | src/main/java/com/dcaiti/mosaic/app/tse/persistence/ScenarioDatabaseHelper.java:59-70 | The loop computes the sum of the distances between consecutive nodes. |
| Polylines.PolylineLengthAppend | src/main/java/com/dcaiti/mosaic/app/tse/persistence/ScenarioDatabaseHelper.java:59-70 | Appending a node adds its distance from the last node. |
| Polylines.PolylineLengthNonNegative | src/main/java/com/dcaiti/mosaic/app/tse/persistence/ScenarioDatabaseHelper.java:59-70 | With a non-negative distance the length is non-negative. |
| Polylines.ShortPolylines | src/main/java/com/dcaiti/mosaic/app/tse/persistence/ScenarioDatabaseHelper.java:59-70 | Fewer than two nodes give 0. Two nodes give their distance. |
| TrafficMetrics.GetQuadrant | src/main/java/com/dcaiti/mosaic/app/tse/processors/SpatioTemporalTrafficMetric.java:99-113 | Each quadrant is chosen exactly when both speeds lie on its sides of the thresholds. Reaching a threshold counts as above it. |
| TrafficMetrics.DistanceBasedMetric | src/main/java/com/dcaiti/mosaic/app/tse/processors/SpatioTemporalTrafficMetric.java:74-89 | The distance is non-negative and equals the sum of the two shortfalls below the thresholds. |
| TrafficMetrics.RelativeTrafficStatusMetric | src/main/java/com/dcaiti/mosaic/app/tse/processors/SpatioTemporalTrafficMetric.java:53-64 | Without thresholds the metric is -1, checked first. It is 1 when a speed is the no-speed marker. It has no finite value exactly when the threshold sum is 0. |
| TrafficMetrics.RtsmInUnitRange | src/main/java/com/dcaiti/mosaic/app/tse/processors/SpatioTemporalTrafficMetric.java:53-89 | With non-negative speeds and positive thresholds the metric lies in [0, 1]. It is 0 in the upper-right quadrant and 1 only when both speeds are 0. |
| TrafficMetrics.RecomputeRelativeTrafficMetrics | src/main/java/com/dcaiti/mosaic/app/tse/processors/SpatioTemporalTrafficMetric.java:34-42 | Every stored traversal gets its metric recomputed in place, and nothing else of it changes. |
| SpatioTemporalProcessors.BuildTraversalList | src/main/java/com/dcaiti/mosaic/app/tse/processors/SpatioTemporalProcessor.java:153-169 | The list is the previous record (offset: minus its distance to the first node), the traversal's records, then the following record (offset: the last offset plus the distance driven). |
| SpatioTemporalProcessors.TraversalAccepted | src/main/java/com/dcaiti/mosaic/app/tse/processors/SpatioTemporalProcessor.java:74-89 | The guard accepts a traversal exactly when it has a previous record on another connection, so a sender's first traversal is rejected. |
| SpatioTemporalProcessors.OffsetsIncrease | src/main/java/com/dcaiti/mosaic/app/tse/processors/SpatioTemporalProcessor.java:96-104 | The knots increase by at least 1 mm per step and never lie below the record's own offset. |
| SpatioTemporalProcessors.SplineInputs | src/main/java/com/dcaiti/mosaic/app/tse/processors/SpatioTemporalProcessor.java:92-104 | The loop fills the offset, speed and time arrays with the knot sequences. |
| SpatioTemporalProcessors.TraversalLength | src/main/java/com/dcaiti/mosaic/app/tse/processors/SpatioTemporalProcessor.java:171-181 | The length is the last knot exactly when the node length exceeds it by at most 5 m; otherwise it is the node length. |
| SpatioTemporalProcessors.SampleLoopTest | src/main/java/com/dcaiti/mosaic/app/tse/processors/SpatioTemporalProcessor.java:190-204 | The sampling loop continues exactly while fewer than the sample count are taken. |
| SpatioTemporalProcessors.SamplesWithinOffsets | src/main/java/com/dcaiti/mosaic/app/tse/processors/SpatioTemporalProcessor.java:190-204 | Every sample point lies within the knots. |
| SpatioTemporalProcessors.SpatialMeanSpeed | src/main/java/com/dcaiti/mosaic/app/tse/processors/SpatioTemporalProcessor.java:190-204 | With less than one chunk of range it is the mean of the record speeds. Otherwise it is the mean of the spline sampled every chunk from the rounded-up first offset. |
| SpatioTemporalProcessors.NaiveTemporalMeanSpeed | src/main/java/com/dcaiti/mosaic/app/tse/processors/SpatioTemporalProcessor.java:238-249 | The mean of the speeds of the records on the second record's connection, which is never empty. |
| SpatioTemporalProcessors.NaiveMeanNonNegative | src/main/java/com/dcaiti/mosaic/app/tse/processors/SpatioTemporalProcessor.java:238-249 | Non-negative speeds give a non-negative naive mean. |
| SpatioTemporalProcessors.TruncateToLong | src/main/java/com/dcaiti/mosaic/app/tse/processors/SpatioTemporalProcessor.java:136 | The cast truncates toward zero: the floor of a non-negative value, the ceiling of a negative one. |
| SpatioTemporalProcessors.ComputeSubMetrics | src/main/java/com/dcaiti/mosaic/app/tse/processors/SpatioTemporalProcessor.java:70-142 | The metrics are `SubMetrics`: none for a rejected traversal, an out-of-knot spline value or a zero traversal time. |
| SpatioTemporalProcessors.ComputeKnotMetrics | src/main/java/com/dcaiti/mosaic/app/tse/processors/SpatioTemporalProcessor.java:91-141 | The part after the guard computes `KnotMetrics`. |
| SpatioTemporalProcessors.ComputeRangedMetrics | src/main/java/com/dcaiti/mosaic/app/tse/processors/SpatioTemporalProcessor.java:109-141 | The range checks and traversal time compute `RangedMetrics`. |
| SpatioTemporalProcessors.ComputeTimedMetrics | src/main/java/com/dcaiti/mosaic/app/tse/processors/SpatioTemporalProcessor.java:113-136 | The mean speeds, the RTSM (-1 without thresholds) and the naive speed make up `TimedMetrics`. |
| SpatioTemporalProcessors.SubMetricsOfKernelTraversal | src/main/java/com/dcaiti/mosaic/app/tse/processors/SpatioTemporalProcessor.java:70-142 | Nothing is stored for a traversal without a previous record on another connection. Stored metrics belong to the traversed connection and vehicle. |
| SpatioTemporalProcessors.SpatioTemporalProcessor.constructor | src/main/java/com/dcaiti/mosaic/app/tse/processors/SpatioTemporalProcessor.java:55 | The chunk size defaults to 15 m and nothing is stored yet. |
| SpatioTemporalProcessors.SpatioTemporalProcessor.OnConnectionTraversal | src/main/java/com/dcaiti/mosaic/app/tse/processors/SpatioTemporalProcessor.java:262-264 | The traversal's metrics, if any, are appended to storage; nothing else is. |
| ThresholdProcessors.Quotient | src/main/java/com/dcaiti/mosaic/app/tse/processors/ThresholdProcessor.java:154-155 | A quotient is finite exactly when the divisor is non-zero, and then multiplies back. |
| ThresholdProcessors.RedLightUpdateKeeps | src/main/java/com/dcaiti/mosaic/app/tse/processors/ThresholdProcessor.java:193-207 | An existing red-light entry is never overwritten and a new one is the default duration. A connection gains one exactly when its count lies in (10, 400] and its percentile spread is one to three durations. |
| ThresholdProcessors.ThresholdProcessor.UpdateHeuristicRedLightDurations | src/main/java/com/dcaiti/mosaic/app/tse/processors/ThresholdProcessor.java:193-207 | The loop over connections yields `RedLightUpdate` of the old map, whatever the map order. |
| ThresholdProcessors.SpeedsReaching | src/main/java/com/dcaiti/mosaic/app/tse/processors/ThresholdProcessor.java:225-228 | The filter keeps at most all pairs. A non-finite threshold keeps none. |
| ThresholdProcessors.SpeedsReachingSome | src/main/java/com/dcaiti/mosaic/app/tse/processors/ThresholdProcessor.java:225-230 | The filter is non-empty exactly when some pair's temporal mean reaches the threshold. |
| ThresholdProcessors.SpatialThresholds | src/main/java/com/dcaiti/mosaic/app/tse/processors/ThresholdProcessor.java:216-235 | The computation throws exactly when a connection with enough pairs has no temporal threshold to unbox. |
| ThresholdProcessors.SpatialNeedsTemporal | src/main/java/com/dcaiti/mosaic/app/tse/processors/ThresholdProcessor.java:216-235 | Each spatial threshold belongs to a connection with enough pairs and a finite temporal threshold that one of them reaches. |
| ThresholdProcessors.AgreeOnKeysAgree | src/main/java/com/dcaiti/mosaic/app/tse/processors/ThresholdProcessor.java:119-136 | The size test suffices: after pruning, both maps hold exactly the connections with a spatial threshold. |
| ThresholdProcessors.FiniteValues | src/main/java/com/dcaiti/mosaic/app/tse/processors/ThresholdProcessor.java:137 | Only finite thresholds are handed over. With all finite, all are. |
| ThresholdProcessors.InsertedThresholdsAgree | src/main/java/com/dcaiti/mosaic/app/tse/processors/ThresholdProcessor.java:113-138 | Both inserted maps have the same connections. Each has finite thresholds, more than the minimum traversals and an observation above 5. |
| ThresholdProcessors.ThresholdProcessor.constructor | src/main/java/com/dcaiti/mosaic/app/tse/processors/ThresholdProcessor.java:59-68 | The defaults: 45 s red light, more than 10 traversals, no RTSM recomputation, and an empty red-light map. |
| ThresholdProcessors.ThresholdProcessor.ComputeThresholds | src/main/java/com/dcaiti/mosaic/app/tse/processors/ThresholdProcessor.java:113-138 | Without a positive interval nothing happens. Otherwise the heuristic runs and the pruned maps are inserted, unless the spatial computation throws. |
| ThresholdProcessors.ThresholdProcessor.TriggerEvent | src/main/java/com/dcaiti/mosaic/app/tse/processors/ThresholdProcessor.java:95-103 | The thresholds are computed and, when configured, every stored RTSM is recomputed. |
| ThresholdProcessors.ThresholdProcessor.Shutdown | src/main/java/com/dcaiti/mosaic/app/tse/processors/ThresholdProcessor.java:245-251 | There is a last trigger unless the processor already triggered at shutdown time. Then every RTSM is recomputed and the red-light map is cleared. |
| FcdWriters.BufferOfPerSender | src/main/java/com/dcaiti/mosaic/app/tse/processors/FcdWriterProcessor.java:42-51 | A vehicle has a list exactly when it sent an update. The list is its records in arrival order, with no other vehicle's records. |
| FcdWriters.FromSenderAbsent | src/main/java/com/dcaiti/mosaic/app/tse/processors/FcdWriterProcessor.java:42-51 | A vehicle that sent nothing has no records. |
| FcdWriters.FcdWriterProcessor.constructor | src/main/java/com/dcaiti/mosaic/app/tse/processors/FcdWriterProcessor.java:36-62 | Starts with an empty buffer and nothing persisted. |
| FcdWriters.FcdWriterProcessor.HandleUpdate | src/main/java/com/dcaiti/mosaic/app/tse/processors/FcdWriterProcessor.java:42-51 | The update's records go to the end of the sender's list, and every other list stays. |
| FcdWriters.FcdWriterProcessor.PersistRecords | src/main/java/com/dcaiti/mosaic/app/tse/processors/FcdWriterProcessor.java:59-62 | The whole buffer is handed to storage once and emptied. |
| FcdWriters.FcdWriterProcessor.TriggerEvent | src/main/java/com/dcaiti/mosaic/app/tse/processors/FcdWriterProcessor.java:54-57 | Each trigger is one hand-over. |
| FcdWriters.FcdWriterProcessor.Shutdown | src/main/java/com/dcaiti/mosaic/app/tse/processors/FcdWriterProcessor.java:36-39 | Shutdown is the final hand-over. |
| Transmitters.SignedStartDistance | src/main/java/com/dcaiti/mosaic/app/fxd/FxdTransmitterApp.java:156-161 | Keeps the distance's magnitude. A positive distance is negated exactly when the start node lies within 120 degrees of the heading. |
| Transmitters.OffsetFollowsDistanceDriven | src/main/java/com/dcaiti/mosaic/app/fxd/FxdTransmitterApp.java:151-167 | The first sample on a new connection reports the signed distance to its start node. A later sample on the same connection adds exactly the distance driven since. |
| Transmitters.CollectAppends | src/main/java/com/dcaiti/mosaic/app/fxd/FxdTransmitterApp.java:97-109 | With a positive interval a collected record is appended behind every buffered one, keeping the buffer sorted and spaced. |
| Transmitters.FxdTransmitter.constructor | src/main/java/com/dcaiti/mosaic/app/fxd/FxdTransmitterApp.java:60-75 | Starts with an empty buffer, no previous connection and nothing sent. |
| Transmitters.FxdTransmitter.CalcOffset | src/main/java/com/dcaiti/mosaic/app/fxd/FxdTransmitterApp.java:151-167 | The three offset fields become `NextOffsetState` of the old ones, and the returned offset is `OffsetOf` the new state: the distance driven since entering the connection plus the signed start distance. |
| Transmitters.FxdTransmitter.HandleUpdateTransmission | src/main/java/com/dcaiti/mosaic/app/fxd/FxdTransmitterApp.java:111-126 | Once the oldest record is an interval old, a non-final update with the whole buffer is sent and the buffer cleared. Otherwise nothing changes. |
| Transmitters.FxdTransmitter.HandleRecordCollection | src/main/java/com/dcaiti/mosaic/app/fxd/FxdTransmitterApp.java:97-109 | When the newest record is an interval old, or there is none, the offset fields advance and a record with the new offset, the speed, the heading and (when enabled) the perceived vehicles is put at the current time. Otherwise the buffer and the offset fields are unchanged. |
| Transmitters.FxdTransmitter.OnVehicleUpdated | src/main/java/com/dcaiti/mosaic/app/fxd/FxdTransmitterApp.java:88-95 | Without a road position nothing changes. Otherwise transmission is checked on the old buffer and collection on what it leaves: the update sent, the new buffer and the offset fields are stated exactly. After a transmission the buffer holds exactly the record collected at this time. |
| Transmitters.FxdTransmitter.OnShutdown | src/main/java/com/dcaiti/mosaic/app/fxd/FxdTransmitterApp.java:77-85 | A non-empty buffer leaves as one final update. An empty one sends nothing. |
| ServerApps.WithRequired | src/main/java/com/dcaiti/mosaic/app/tse/TseServerApp.java:86-97 | A missing list becomes the required processor alone, and a list without it gets it appended. The given order is kept. |
| ServerApps.WithRequiredIdempotent | src/main/java/com/dcaiti/mosaic/app/tse/TseServerApp.java:86-97 | Completing twice is completing once. |
| ServerApps.WithRequiredKeeps | src/main/java/com/dcaiti/mosaic/app/tse/TseServerApp.java:86-97 | Completing for one processor keeps the other. |
| ServerApps.ServerConfig.constructor | src/main/java/com/dcaiti/mosaic/app/tse/config/CTseServerApp.java:51-70 | The defaults are no lists, no storage, no database location and not persistent. |
| ServerApps.ServerConfig.AddRequiredProcessors | src/main/java/com/dcaiti/mosaic/app/tse/TseServerApp.java:86-97 | The spatio-temporal processor is added to the traversal list and the threshold processor to the time list. |
| ServerApps.DatabaseLocation | src/main/java/com/dcaiti/mosaic/app/tse/TseServerApp.java:74-84 | The configured directory, else the configuration path. The configured file name, else "FcdData.sqlite". |
| ServerApps.InitKernel | src/main/java/com/dcaiti/mosaic/app/tse/TseServerApp.java:74-84 | The lists are completed and the location and storage chosen. Every other setting is kept. |
| Resampling.IndexOf | evaluation/lib/utils.py:204-212 | The position of a column name is -1 exactly when the name is absent. |
| Resampling.MeanOfEqual | evaluation/lib/utils.py:206-208 | The mean of equal numbers is that number. The mean of none is missing. |
| Resampling.BucketBounds | evaluation/lib/utils.py:208 | A time's bucket covers it: [b·w, b·w + w). |
| Resampling.BucketMonotone | evaluation/lib/utils.py:208 | Later times never fall in earlier buckets. |
| Resampling.Buckets | evaluation/lib/utils.py:208 | The buckets are consecutive. |
| Resampling.BucketsCover | evaluation/lib/utils.py:208 | Every row's bucket is among them. |
| Resampling.RowsIn | evaluation/lib/utils.py:205-208 | A bucket's rows all fall in that bucket. |
| Resampling.MissingKey | evaluation/lib/utils.py:208 | No key is missing exactly when every grouper column is present. |
| Resampling.AggregateShape | evaluation/lib/utils.py:208 | Aggregation fails exactly when a grouper column is missing. Otherwise there is one row per bucket and one column per grouper entry. |
| Resampling.AggregateSpacing | evaluation/lib/utils.py:208 | Aggregate rows are one window apart, in time order. |
| Resampling.AggregateCovers | evaluation/lib/utils.py:208 | Every input row falls in the window of one aggregate row. |
| Resampling.PutReducer | evaluation/lib/utils.py:206 | Setting a grouper entry replaces it in place or appends it. |
| Resampling.SetColumn | evaluation/lib/utils.py:205 | Assigning a column replaces it in place or appends it. Other cells are unchanged. |
| Resampling.SamplesAreCounts | evaluation/lib/utils.py:204-212 | The aggregated samples of a bucket are the number of its non-missing first-column values, and 0 for an empty bucket. |
| Resampling.FillLimit | evaluation/lib/utils.py:364 | A limit is a non-negative multiple of 60. |
| Resampling.FillLimitDefaults | evaluation/lib/utils.py:364 | Both default windows give 900 s. |
| Resampling.FillLimitOthers | evaluation/lib/utils.py:364 | "30min" gives 1800 s. "1H" raises a ValueError. |
| Resampling.EdgeDataFillLimitIgnoresWindow | evaluation/lib/utils.py:243-245 | With a 30-minute window, the edge resampler as written equals the corrected one given 15 minutes. |
| Resampling.Reindex | evaluation/lib/utils.py:361-363 | Reindexing gives one row per second of the day, 0 to 86400, in order. |
| Resampling.ReindexKeeps | evaluation/lib/utils.py:361-363 | A second present in the table keeps its first row's cells. |
| Resampling.FFillScanCell | evaluation/lib/utils.py:365 | The forward-fill scan keeps values. A missing cell takes the nearest earlier value when it lies within the limit. |
| Resampling.FFilledCell | evaluation/lib/utils.py:365 | A forward fill fills a missing cell exactly when an earlier value lies at most `limit` places back. |
| Resampling.ParseFillMethod | evaluation/lib/utils.py:365 | "ffill" and "pad" give the forward fill, "bfill" and "backfill" the backward fill. Anything else raises a ValueError. |
| Resampling.LastPresent | evaluation/lib/utils.py:365 | The nearest earlier value: everything between it and the cell is missing. |
| Resampling.NextPresent | evaluation/lib/utils.py:365 | The nearest later value: everything between the cell and it is missing. |
| Resampling.LastPresentReversed | evaluation/lib/utils.py:365 | Looking back in the reversed column is looking ahead in the column. |
| Resampling.ReverseAt | evaluation/lib/utils.py:365 | Reversal mirrors indices. |
| Resampling.BFilledCell | evaluation/lib/utils.py:365 | A backward fill keeps values. It fills a missing cell with the nearest later value exactly when that lies at most `limit` places ahead. |
| Resampling.ZeroFilled | evaluation/lib/utils.py:366 | No cell is missing after fillna(0). |
| Resampling.Reindexed | evaluation/lib/utils.py:361-366 | A ValueError exactly when the window gives no positive limit or the fill method is unknown. Otherwise every second of the day, 0 to 86400, has one row in order, the columns are kept, and no cell is missing. |
| Resampling.Rolling | evaluation/lib/utils.py:373-374 | Every cell becomes the mean of its column over the rows less than a window earlier, excluding the row itself. |
| Resampling.Within | evaluation/lib/utils.py:374 | The window's rows lie strictly between the bounds. |
| Resampling.KeepInHoursMembers | evaluation/lib/utils.py:376-377 | A row is kept exactly when it lies in the hour range, both ends included. |
| Resampling.KeepInHoursAppend | evaluation/lib/utils.py:376-377 | Clipping splits over concatenation, so kept rows stay in order. |
| Resampling.FinalizedTimeStamps | evaluation/lib/utils.py:368-377 | Without rolling, every finalized row lies in the hour range and its timeStamp is its time in seconds. |
| Resampling.Finalize | evaluation/lib/utils.py:335-378 | Fails exactly when reindexing is asked for and fails. Every row lies in the hour range, and within the day when reindexed. |
| Resampling.ResampleSpeedData | evaluation/lib/utils.py:173-213 | With neither `sampleAmount` nor any column it raises an IndexError. Every result row lies in the hour range, and within the day when reindexed. |
| Resampling.SpeedDataStages | evaluation/lib/utils.py:201-213 | Without reindexing or rolling, the result is the aggregate with `samples` made a count, time-stamped and clipped. |
| Resampling.CountedRowAt | evaluation/lib/utils.py:210-212 | Each such row comes from an aggregate row with the same time and holds its `samples` made a count. |
| Resampling.SpeedDataSamplesAt | evaluation/lib/utils.py:201-213 | Without reindexing or rolling, every result row's `samples` is the number of non-missing first-column values the input has in that row's bucket. |
| Resampling.ResampleEdgeDataAsWritten | evaluation/lib/utils.py:216-245 | Fails exactly when a grouper column is missing or, when reindexing, the fill method is unknown; the window never reaches the fill. Rows lie in the hour range. |
| Resampling.ResampleEdgeData | evaluation/lib/utils.py:216-245 | Fails exactly when a grouper column is missing or, when reindexing, the window gives no positive limit or the fill method is unknown. Rows lie in the hour range. |
| Resampling.EdgeDataWindowUnparsed | evaluation/lib/utils.py:243-245 | With window "1H" and reindexing, the resampler as written succeeds while the corrected one raises a ValueError. |
| PerEdgeResampling.Insert | evaluation/lib/utils.py:415 | Inserting keeps the ids ascending and adds exactly the new id. |
| PerEdgeResampling.Connections | evaluation/lib/utils.py:415 | The groups' keys are ascending and are exactly the ids present. None means no rows. |
| PerEdgeResampling.BelowTransitive | evaluation/lib/utils.py:415 | Python string order is transitive. |
| PerEdgeResampling.BelowTotal | evaluation/lib/utils.py:415 | Python string order is total. |
| PerEdgeResampling.AscendingDistinct | evaluation/lib/utils.py:415 | Ascending ids are distinct, so each group is visited once. |
| PerEdgeResampling.GroupRowsAppend | evaluation/lib/utils.py:415-417 | Grouping splits over concatenation. |
| PerEdgeResampling.GroupIndependent | evaluation/lib/utils.py:415-417 | One edge's group does not depend on other edges' rows. |
| PerEdgeResampling.GroupRowsShape | evaluation/lib/utils.py:417 | Every group row carries the connection id first and keeps its width. |
| PerEdgeResampling.GroupSamplesCountRecords | evaluation/lib/utils.py:205-208 | An edge's samples count for a bucket is the number of its records in that bucket. |
| PerEdgeResampling.Tag | evaluation/lib/utils.py:420-421 | Every result row is tagged with its connection. |
| PerEdgeResampling.ResampledGroupsRows | evaluation/lib/utils.py:415-422 | The frame has as many rows as the groups' results together, and each row's id is one of the groups. |
| PerEdgeResampling.ResampledGroupsFails | evaluation/lib/utils.py:418-419 | Once a group fails, the whole run fails with that error. |
| PerEdgeResampling.ResampledGroupsStep | evaluation/lib/utils.py:415-422 | Each further group either fails with its error or appends its rows tagged with its connection. |
| PerEdgeResampling.PerEdge | evaluation/lib/utils.py:405-424 | Empty input raises a KeyError on `connectionID`. A result has as many rows as the groups' results together, and every row's connection occurs in the input. |
| PerEdgeResampling.ResampleDataPerEdge | evaluation/lib/utils.py:405-424 | The loop computes `PerEdge`: the concatenation in ascending id order, the first group error, or a KeyError on empty input. |
| PerEdgeResampling.ResampleTraversalDataPerEdge | evaluation/lib/utils.py:248-273 | Resamples per edge with the traversal grouper. |
| PerEdgeResampling.ResampleEdgeDataPerEdge | evaluation/lib/utils.py:277-301 | Resamples per edge with the edge-data grouper, through the speed-data resampler. |
| PerEdgeResampling.ResampleCustomDataPerEdge | evaluation/lib/utils.py:305-331 | Resamples per edge with the caller's grouper. |

## Left out

- Java and Python I/O is not modelled.
  - This covers V2X transmission, the event manager, loggers, the SQLite storage, and the file readers in `evaluation/lib/utils.py` (lines 28-169).
  - These are outboxes of calls, or absent.
- Foreign numerics are parameters: splines, Guava percentiles, geodesic distance and azimuth.
- Doubles are real numbers, with no rounding, NaN or infinity.
  - Where the source produces a non-finite quotient, the model says `None`.
  - The float cast of the RTSM is not modelled.
- `long` overflow of times and sizes is not modelled, since integers are unbounded.
- Copies of the same code are modelled once:
  - `FxdUpdate` and `AbstractUpdateBuilder` (the fcd package) duplicate `FxdUpdateMessage` and `AbstractUpdateMessageBuilder`;
  - `TrafficStateEstimationServerApp` duplicates `TseServerApp`.
- `FcdKernel`'s storage wiring and `instanceof` tests are not modelled; processors are identified by name.
- Message-based processors and `handleMessageAdvanced` are not part of this model.
- The kernel assumes updates of one sender arrive in time order.
  - `ProcessUpdate` requires this, as `InOrder`, and requires a non-empty update.
  - The transmitter only sends non-empty buffers.
- SpatioTemporalProcessors.SpatioTemporalProcessor.OnConnectionTraversal requires that the network knows the traversal's connection. The source would throw on a null there.
- Chunk sizes and windows are required to be positive.
- SpatioTemporalProcessors.ComputeSubMetrics: a traversal time of exactly 0 stores nothing, where the source divides by it and stores an infinite or NaN temporal mean speed; non-finite doubles are not modelled.
- The grouper frequency is a width in whole seconds from the epoch. The pandas offset-alias parser is not modelled.
- Nanosecond timestamps are whole seconds.
- Only the reducers mean, sum and count are modelled.
- Text cells in an aggregated or rolled column are skipped; pandas would raise.
- Resampling.FillLimit: Python's `int()` also accepts a sign, surrounding whitespace and underscores, which the model refuses. `Lower` is ASCII-only.
- Resampling.Rolling: the window is given in whole seconds rather than as a pandas offset string.
- Resampling.FinalizedTimeStamps: stated without a rolling window, because the rolling mean also averages the `timeStamp` column.
- pandas copies are implicit, since every stage is a pure function.

## Findings

| source | as written | input that shows it | evidently intended | confidence | as-written member | corrected member |
|---|---|---|---|---|---|---|
| src/main/java/com/dcaiti/mosaic/app/fcd/data/FcdRecord.java:71-73 | `calculateRecordSize` dereferences the perceived-vehicle list unconditionally. | A record built with perception disabled (the default) has a null list, and the size throws. So does the update's `calculateMessageLength`. | A null list counts as empty, giving size 62. | not executed | Records.RecordSizeAsWritten, Records.DefaultRecordSizeFails, Messages.MessageLengthAsWritten | Records.RecordSize, Records.RecordSizeAgrees |
| src/main/java/com/dcaiti/mosaic/app/tse/FxdKernel.java:231-248 | The removal event is scheduled once, in the constructor. It removes senders older than an absolute bound equal to the expiration time. | Default configuration: the removal event fires at 30 min with bound 60 min. A sender whose newest record is from 29 min is removed. | Each removal removes senders silent for longer than the expiration time, and schedules the next removal. | not executed | Kernel.RemovalAsWrittenDropsActiveSender | Kernel.FxdKernel.ProcessExpiryEventCorrected, Kernel.CorrectedRemovalKeepsActive |
| evaluation/lib/utils.py:243-245 | `resample_edge_data` does not pass its window to `_finalize_resampling`. | window "30min" with reindexing: gaps are filled for at most 900 s, not 1800 s. Window "1H" is accepted where it should raise. | The fill limit follows the given window, as in `resample_speed_data`. | not executed | Resampling.ResampleEdgeDataAsWritten, Resampling.EdgeDataFillLimitIgnoresWindow, Resampling.EdgeDataWindowUnparsed | Resampling.ResampleEdgeData |
