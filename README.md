# acl_resnet50: resource ownership across the Ascend ACL runtime

This project models the part of the ResNet-50 sample that manages resources through the Ascend ACL runtime. The sample loads an offline model and describes it. It creates the model's output dataset. For each of two test files it then:
- reads the file into a device buffer;
- binds that buffer as the input;
- runs the model;
- ranks each output's scores (top five);
- releases the buffer and the input.

The model is about ownership. It tracks which device buffers, host buffers, data-buffer records, datasets, descriptors and models are live after every call, on every success and failure path, and which bytes each buffer holds.

The model has these layers:
- **`AclModel`** is the runtime as a state machine over opaque handles. Each ACL entry point is a transition function. Whether a fallible call fails is an oracle: the state carries the set of call-log positions at which a call reports an error, so every combination of failures is covered by one universally quantified state.
- **`AclRuntime.Runtime`** is the same runtime as a class whose methods change its fields. Each method is proved to do exactly what the `AclModel` function of the same name does.
- **`Lifecycle`** models the `ModelProcess` methods (src/model_process.cpp) as functions of the instance's fields (`Lifecycle.Mp`) and the runtime state. `Lifecycle.Inv` is the ownership discipline:
  - the model's work and weight memory are live and of the queried sizes;
  - the input dataset only borrows its buffers;
  - the output dataset owns one live buffer per record, shared with nothing.
  
  Every method keeps `Lifecycle.Inv` (the `...KeepsInv` lemmas). **`LifecycleFacts`** proves what the methods promise: at-most-once load, the leaks of a failed load, idempotent Unload and Destroy methods, borrowing versus owning, and CreateOutput sizing its buffers after the descriptor.
- **`ModelProcessing.ModelProcess`** is the class with the source's fields, updated in place. Each method is proved to produce exactly the fields and runtime state its `Lifecycle` (or `Reporting`) function prescribes. CreateOutput, DestroyInput, DestroyOutput and OutputModelResult keep the source's loops.
- **`Ranking`** is the top-5 report of OutputModelResult: an ordered map from score to position, greatest score first, where a later position overwrites an earlier one. `Ranking.RankTopFive` is the loop, proved against the `TopFive` function; `TopFiveSpec` proves what the report is.
- **`Reporting`** is OutputModelResult over the runtime state. In host mode it copies each output into a host staging buffer; in device mode it reads the output in place.
- **`FileTransfer`** (functions) and **`Utils`** (methods on the runtime object) model `Utils::ReadBinFile` and `Utils::GetDeviceBufferOfFile`, in both run modes. They are proved leak-free on every failure, and a success delivers the file's bytes in a new device buffer.
- **`SampleProcessing`** models the driver `SampleProcess::Process`, stage by stage, as functions (`Session`, `Described`, `Prepared`, `Loop`, `Iteration`, `Bound`, `Infer`, `Release`, `Released`, `Processed`). It also has methods on the two classes that are proved to follow those functions. **`SampleProcessFacts`** proves the call order, the loop count and that teardown runs on every path.

The file system is a parameter: a map from path to what `stat`/`open` find there. The run mode `g_isDevice` is the parameter `onDevice`. The offline model file is a `ModelImage`: the work size, the weight size and the output sizes the runtime learns from it.

On these paths the code does not roll back or release, and the model keeps that behaviour:
- A failed load keeps the memory it allocated; it is not rolled back (`LifecycleFacts.LoadLeak`).
- A failed CreateOutput keeps the outputs it already added (`LifecycleFacts.CreateOutputSized`).
- Unload does not free the output buffers; only DestroyOutput does (`LifecycleFacts.UnloadFrees`, `LifecycleFacts.DestroyOutputOwns`).
- Equal scores are not ranked by ascending index. The ordered map keeps one entry per score, carrying the last position (`Ranking.EqualScoresCollapse`).
- A failed `aclmdlExecute` inside Process leaves the file's device buffer allocated and the input bound (`SampleProcessing.Infer`).

## Model

| member | source | states |
|---|---|---|
| AclModel.QuerySize | src/model_process.cpp:43-47 | aclmdlQuerySize reports the image's work and weight sizes, fails as the oracle says, allocates nothing; its contract keeps the state valid (every live handle non-null and below the next) |
| AclModel.Malloc | src/model_process.cpp:50-54 | aclrtMalloc: on success one fresh device buffer of the size asked for; on failure a null pointer and nothing allocated; its contract keeps the state valid (every live handle non-null and below the next) |
| AclModel.MallocHost | src/utils.cpp:58-64 | aclrtMallocHost: one fresh host buffer of the size asked for, or null and nothing allocated; its contract keeps the state valid (every live handle non-null and below the next) |
| AclModel.Free | src/sample_process.cpp:143 | aclrtFree releases one live device buffer (only a live one may be freed); its contract keeps the state valid (every live handle non-null and below the next) |
| AclModel.FreeHost | src/utils.cpp:111 | aclrtFreeHost releases one live host buffer; its contract keeps the state valid (every live handle non-null and below the next) |
| AclModel.MemcpyHostToDevice | src/utils.cpp:103-110 | aclrtMemcpy host to device copies `count` bytes over the start of the destination, refused when `count` exceeds the destination's `destMax`; its contract keeps the state valid (every live handle non-null and below the next) |
| AclModel.MemcpyDeviceToHost | src/model_process.cpp:267-271 | aclrtMemcpy device to host, the mirror image; its contract keeps the state valid (every live handle non-null and below the next) |
| AclModel.LoadFromFileWithMem | src/model_process.cpp:65-70 | aclmdlLoadFromFileWithMem registers a fresh model id with the image's outputs (zero on failure) and takes no ownership of the memory; its contract keeps the state valid (every live handle non-null and below the next) |
| AclModel.Unload | src/model_process.cpp:343-346 | aclmdlUnload forgets a loaded model, failing on an unknown id; its contract keeps the state valid (every live handle non-null and below the next) |
| AclModel.CreateDesc | src/model_process.cpp:81-85 | aclmdlCreateDesc: a fresh empty descriptor or null; its contract keeps the state valid (every live handle non-null and below the next) |
| AclModel.GetDesc | src/model_process.cpp:88-92 | aclmdlGetDesc fills a live descriptor with a loaded model's output sizes; its contract keeps the state valid (every live handle non-null and below the next) |
| AclModel.DestroyDesc | src/model_process.cpp:102 | aclmdlDestroyDesc releases a live descriptor; its contract keeps the state valid (every live handle non-null and below the next) |
| AclModel.CreateDataset | src/model_process.cpp:111-115 | aclmdlCreateDataset: a fresh empty dataset or null; its contract keeps the state valid (every live handle non-null and below the next) |
| AclModel.DestroyDataset | src/model_process.cpp:144 | aclmdlDestroyDataset releases the dataset object only, never its records; its contract keeps the state valid (every live handle non-null and below the next) |
| AclModel.CreateDataBuffer | src/model_process.cpp:117-121 | aclCreateDataBuffer: a fresh record of an unchecked, unowned address and a size, or null; its contract keeps the state valid (every live handle non-null and below the next) |
| AclModel.DestroyDataBuffer | src/model_process.cpp:142 | aclDestroyDataBuffer releases the record, never the memory it points to, and accepts null; its contract keeps the state valid (every live handle non-null and below the next) |
| AclModel.AddDatasetBuffer | src/model_process.cpp:123-129 | aclmdlAddDatasetBuffer appends a live record to a dataset and refuses a null or dead one; its contract keeps the state valid (every live handle non-null and below the next) |
| AclModel.Execute | src/model_process.cpp:326-330 | aclmdlExecute succeeds only with a loaded model and live datasets and changes no ownership; its contract keeps the state valid (every live handle non-null and below the next) |
| AclModel.Store | src/utils.cpp:75 | the read of the file into the buffer replaces that buffer's bytes, in host or device memory by mode; its contract keeps the state valid (every live handle non-null and below the next) |
| AclRuntime.Runtime.QuerySize | src/model_process.cpp:43-47 | results and new runtime state are exactly AclModel.QuerySize of the old state |
| AclRuntime.Runtime.Malloc | src/model_process.cpp:50-54 | results and new state are exactly AclModel.Malloc |
| AclRuntime.Runtime.MallocHost | src/utils.cpp:58-64 | results and new state are exactly AclModel.MallocHost |
| AclRuntime.Runtime.Free | src/sample_process.cpp:143 | new state is exactly AclModel.Free |
| AclRuntime.Runtime.FreeHost | src/utils.cpp:111 | new state is exactly AclModel.FreeHost |
| AclRuntime.Runtime.MemcpyHostToDevice | src/utils.cpp:103-110 | result and new state are exactly AclModel.MemcpyHostToDevice |
| AclRuntime.Runtime.MemcpyDeviceToHost | src/model_process.cpp:267-271 | result and new state are exactly AclModel.MemcpyDeviceToHost |
| AclRuntime.Runtime.LoadFromFileWithMem | src/model_process.cpp:65-70 | results and new state are exactly AclModel.LoadFromFileWithMem |
| AclRuntime.Runtime.Unload | src/model_process.cpp:343-346 | result and new state are exactly AclModel.Unload |
| AclRuntime.Runtime.CreateDesc | src/model_process.cpp:81-85 | handle and new state are those of AclModel.CreateDesc; the handle is null exactly on failure |
| AclRuntime.Runtime.GetDesc | src/model_process.cpp:88-92 | result and new state are exactly AclModel.GetDesc |
| AclRuntime.Runtime.DestroyDesc | src/model_process.cpp:102 | new state is exactly AclModel.DestroyDesc |
| AclRuntime.Runtime.CreateDataset | src/model_process.cpp:111-115 | handle and new state are those of AclModel.CreateDataset; null exactly on failure |
| AclRuntime.Runtime.DestroyDataset | src/model_process.cpp:144 | new state is exactly AclModel.DestroyDataset |
| AclRuntime.Runtime.CreateDataBuffer | src/model_process.cpp:117-121 | handle and new state are those of AclModel.CreateDataBuffer; null exactly on failure |
| AclRuntime.Runtime.DestroyDataBuffer | src/model_process.cpp:142 | new state is exactly AclModel.DestroyDataBuffer |
| AclRuntime.Runtime.AddDatasetBuffer | src/model_process.cpp:123-129 | result and new state are exactly AclModel.AddDatasetBuffer |
| AclRuntime.Runtime.Execute | src/model_process.cpp:326-330 | result and new state are exactly AclModel.Execute |
| AclRuntime.Runtime.Store | src/utils.cpp:75 | new state is exactly AclModel.Store |
| Lifecycle.Load | src/model_process.cpp:33-75 | LoadModelFromFileWithMem: refused when loaded; otherwise query, allocate work then weight memory, load, each failure returning with what it allocated left in its field; its contract keeps the state valid, and what it promises is proved in LifecycleFacts |
| Lifecycle.LoadWork | src/model_process.cpp:50-54 | the work allocation (the pointer null on failure), then the rest of the load; its contract keeps the state valid, and what it promises is proved in LifecycleFacts |
| Lifecycle.LoadWeight | src/model_process.cpp:56-60 | the weight allocation, then the load call; its contract keeps the state valid, and what it promises is proved in LifecycleFacts |
| Lifecycle.LoadInto | src/model_process.cpp:65-72 | the load call; only its success sets the loaded flag; its contract keeps the state valid, and what it promises is proved in LifecycleFacts |
| Lifecycle.CreateDesc | src/model_process.cpp:78-97 | a descriptor stored in its field (null when aclmdlCreateDesc fails, still live when aclmdlGetDesc fails) and filled from the loaded model; its contract keeps the state valid, and what it promises is proved in LifecycleFacts.CreateDescFills |
| Lifecycle.DestroyDesc | src/model_process.cpp:99-105 | nothing on a null field; otherwise the descriptor destroyed and the field nulled; its contract keeps the state valid, and what it promises is proved in LifecycleFacts |
| Lifecycle.CreateInput | src/model_process.cpp:108-132 | a new input dataset with one record over the caller's buffer; on every path no device memory is allocated or freed and no field other than the input changes |
| Lifecycle.InputRecord | src/model_process.cpp:117-121 | the record over the caller's buffer; device memory and fields unchanged |
| Lifecycle.InputAdd | src/model_process.cpp:123-129 | the record added, or destroyed when refused; device memory and fields unchanged |
| Lifecycle.DestroyRecords | src/model_process.cpp:140-143 | destroying every input record removes exactly those records and touches no memory, dataset, descriptor or model |
| Lifecycle.DestroyInput | src/model_process.cpp:134-146 | nothing on a null field; otherwise the records, then the dataset, destroyed and the field nulled; its contract keeps the state valid, and what it promises is proved in LifecycleFacts |
| Lifecycle.CreateOutput | src/model_process.cpp:148-194 | refused without a descriptor; otherwise a new dataset, kept in its field even on failure, filled with one owned buffer per listed output, stopping at the first failure without rollback; its contract keeps the state valid, and what it promises is proved in LifecycleFacts |
| Lifecycle.AddOutputs | src/model_process.cpp:164-190 | the loop over the descriptor's sizes; the fields and the output dataset stay |
| Lifecycle.OutputIter | src/model_process.cpp:166-189 | one output: allocate, wrap and add; the dataset and descriptors stay and handles only grow |
| Lifecycle.OutputWrap | src/model_process.cpp:176-189 | wrap the buffer in a record and add it; a refusal frees the buffer and destroys the record |
| Lifecycle.OutputIterAdds | src/model_process.cpp:166-189 | an added output is one fresh record over one fresh buffer of the size asked for, appended to the output dataset |
| Lifecycle.OutputWrapFrees | src/model_process.cpp:183-189 | a refused record's buffer is freed |
| Lifecycle.OutputWrapDrops | src/model_process.cpp:176-189 | a refused record is destroyed if it was made; records and datasets are as before |
| Lifecycle.OutputIterRefused | src/model_process.cpp:166-189 | a failed output leaves device memory, records and datasets exactly as they were |
| Lifecycle.ReleaseBuffers | src/model_process.cpp:312-317 | freeing each output record's address and destroying the record removes exactly those addresses and records |
| Lifecycle.DestroyOutput | src/model_process.cpp:306-321 | nothing on a null field; otherwise every output buffer and record released, then the dataset, and the field nulled; its contract keeps the state valid, and what it promises is proved in LifecycleFacts |
| Lifecycle.Execute | src/model_process.cpp:323-334 | runs the model; fields and ownership unchanged; its contract keeps the state valid, and what it promises is proved in LifecycleFacts |
| Lifecycle.Unload | src/model_process.cpp:336-367 | nothing unless loaded; otherwise unload (a failure only logged), destroy the descriptor, free work and weight memory, clear the flag; its contract keeps the state valid, and what it promises is proved in LifecycleFacts |
| Lifecycle.DropModel | src/model_process.cpp:343-351 | the unload call and the descriptor destroyed; no memory changes hands |
| Lifecycle.FreeWork | src/model_process.cpp:353-357 | the work memory, if any, freed and its field cleared; nothing else changes |
| Lifecycle.FreeWeight | src/model_process.cpp:359-363 | the weight memory, if any, freed and its field cleared; nothing else changes |
| Lifecycle.Teardown | src/model_process.cpp:24-30 | the destructor: Unload, DestroyDesc, DestroyInput, DestroyOutput, in that order, keeping the ownership invariant |
| Lifecycle.LoadIntoKeepsInv | src/model_process.cpp:65-72 | the load call keeps the ownership invariant |
| Lifecycle.LoadWeightKeepsInv | src/model_process.cpp:56-60 | the weight allocation keeps the ownership invariant |
| Lifecycle.LoadWorkKeepsInv | src/model_process.cpp:50-54 | the work allocation keeps the ownership invariant |
| Lifecycle.LoadKeepsInv | src/model_process.cpp:33-75 | loading keeps the ownership invariant: a loaded instance holds two distinct live buffers of its recorded sizes |
| Lifecycle.CreateDescKeepsInv | src/model_process.cpp:78-97 | CreateDesc keeps the ownership invariant |
| Lifecycle.DestroyDescKeepsInv | src/model_process.cpp:99-105 | DestroyDesc keeps the ownership invariant |
| Lifecycle.InputAddKeepsInv | src/model_process.cpp:123-129 | adding a non-output record to the empty input keeps the invariant |
| Lifecycle.InputRecordKeepsInv | src/model_process.cpp:117-129 | the input record keeps the invariant |
| Lifecycle.CreateInputKeepsInv | src/model_process.cpp:108-132 | CreateInput keeps the invariant: the input holds live records that are not output records |
| Lifecycle.DestroyInputKeepsInv | src/model_process.cpp:134-146 | DestroyInput keeps the invariant |
| Lifecycle.OutputIterKeepsInv | src/model_process.cpp:166-189 | one output keeps the invariant: its buffer is owned by its record alone |
| Lifecycle.AddOutputsKeepsInv | src/model_process.cpp:164-190 | the output loop keeps the invariant |
| Lifecycle.CreateOutputKeepsInv | src/model_process.cpp:148-194 | CreateOutput keeps the invariant: each buffer it adds is fresh and owned by exactly one output record |
| Lifecycle.DestroyOutputKeepsInv | src/model_process.cpp:306-321 | DestroyOutput keeps the invariant |
| Lifecycle.ExecuteKeepsInv | src/model_process.cpp:323-334 | Execute keeps the invariant |
| Lifecycle.UnloadKeepsInv | src/model_process.cpp:336-367 | Unload keeps the invariant |
| LifecycleFacts.LoadRefused | src/model_process.cpp:36-39 | a second load fails and changes nothing, not even the call log |
| LifecycleFacts.LoadIntoOutcome | src/model_process.cpp:65-72 | the load call succeeds exactly when the runtime call does, registers the model under the new id and allocates nothing |
| LifecycleFacts.LoadWeightStatus | src/model_process.cpp:56-72 | from the weight allocation on, success exactly when both calls succeed; the flag records it and the sizes and work buffer stay |
| LifecycleFacts.LoadWeightMemory | src/model_process.cpp:56-72 | from the weight allocation on, the weight buffer is the only new buffer and stays in its field on every path |
| LifecycleFacts.LoadWorkStatus | src/model_process.cpp:50-72 | from the work allocation on, success exactly when all three calls succeed |
| LifecycleFacts.LoadWorkModel | src/model_process.cpp:50-72 | from the work allocation on, the sizes stay and success registers the image's model |
| LifecycleFacts.LoadWorkMemory | src/model_process.cpp:50-72 | from the work allocation on, the work and weight buffers are the only new ones and stay in their fields |
| LifecycleFacts.LoadOutcome | src/model_process.cpp:33-75 | a load succeeds exactly when the instance is unloaded and none of its four calls fails, and then the flag is set |
| LifecycleFacts.LoadSucceeds | src/model_process.cpp:43-72 | after a successful load the instance holds exactly two fresh, distinct live device buffers of the queried sizes and a model loaded from the image |
| LifecycleFacts.LoadLeak | src/model_process.cpp:50-70 | a failed load leaves the flag clear and every buffer it allocated live in a field, and Unload then does nothing: the memory leaks |
| LifecycleFacts.UnloadClears | src/model_process.cpp:336-367 | Unload on a loaded instance clears the flag and descriptor, nulls the pointers and zeroes their sizes, keeping the id and datasets |
| LifecycleFacts.UnloadFrees | src/model_process.cpp:353-363 | Unload frees exactly the work and weight memory; records and datasets (output buffers included) are untouched |
| LifecycleFacts.UnloadReleases | src/model_process.cpp:343-351 | Unload destroys the descriptor and unloads the model unless that call fails |
| LifecycleFacts.UnloadIdempotent | src/model_process.cpp:336-367 | Unload on an unloaded instance does nothing, so Unload twice equals Unload once |
| LifecycleFacts.DestroyDescIdempotent | src/model_process.cpp:99-105 | DestroyDesc nulls the field, destroys exactly the live descriptor and is idempotent |
| LifecycleFacts.CreateDescFills | src/model_process.cpp:78-97 | the field holds the new descriptor, null exactly when aclmdlCreateDesc fails and live otherwise, also when aclmdlGetDesc fails; success exactly when both calls succeed on a loaded model id, and then the descriptor lists that model's output sizes; no memory, record or dataset changes |
| LifecycleFacts.DescribesLoaded | src/model_process.cpp:65-92 | after a successful load and a successful CreateDesc, the descriptor lists the output sizes of the model file |
| LifecycleFacts.LoadOrder | src/model_process.cpp:43-70 | a successful load calls aclmdlQuerySize, aclrtMalloc (work), aclrtMalloc (weight) and aclmdlLoadFromFileWithMem, in that order |
| LifecycleFacts.CreateDescOrder | src/model_process.cpp:81-92 | CreateDesc calls aclmdlCreateDesc, then aclmdlGetDesc only if the first succeeded |
| LifecycleFacts.UnloadOrder | src/model_process.cpp:336-367 | Unload calls nothing when unloaded; otherwise aclmdlUnload, then aclmdlDestroyDesc if a descriptor is set, then aclrtFree of the work and then of the weight memory if set |
| LifecycleFacts.DestroyDescOrder | src/model_process.cpp:99-105 | DestroyDesc calls aclmdlDestroyDesc once when a descriptor is set and nothing otherwise |
| LifecycleFacts.DestroyRecordsOrder | src/model_process.cpp:140-143 | one aclDestroyDataBuffer per input record, in record order |
| LifecycleFacts.DestroyInputOrder | src/model_process.cpp:134-146 | DestroyInput destroys each input record, then the dataset; nothing when no input is set |
| LifecycleFacts.ReleaseBuffersOrder | src/model_process.cpp:312-317 | for each output record in order, aclrtFree of its memory and then aclDestroyDataBuffer |
| LifecycleFacts.DestroyOutputOrder | src/model_process.cpp:306-321 | DestroyOutput frees and destroys each output record, then the dataset; nothing when no output is set |
| LifecycleFacts.TeardownOrder | src/model_process.cpp:24-30 | the destructor's calls are Unload's, then DestroyDesc's, then DestroyInput's, then DestroyOutput's, in that order |
| LifecycleFacts.DestroyInputBorrows | src/model_process.cpp:134-146 | DestroyInput destroys the input records and dataset, frees no memory, and is idempotent |
| LifecycleFacts.DestroyOutputOwns | src/model_process.cpp:306-321 | DestroyOutput frees every output record's address, destroys the records and the dataset, and is idempotent |
| LifecycleFacts.CreateInputHolds | src/model_process.cpp:108-132 | a successful CreateInput leaves the input holding exactly one record, over the caller's buffer and size |
| LifecycleFacts.OutputIterAppends | src/model_process.cpp:166-189 | one output appends its record on success and leaves the dataset unchanged on failure |
| LifecycleFacts.OutputIterRecords | src/model_process.cpp:166-189 | one output keeps live records unchanged and adds a live record of the size asked for |
| LifecycleFacts.AddOutputsPrefix | src/model_process.cpp:164-190 | records already in the output dataset stay, and at most one is appended per remaining output |
| LifecycleFacts.AddOutputsComplete | src/model_process.cpp:164-190 | success appends exactly one record per remaining output |
| LifecycleFacts.AddOutputsSized | src/model_process.cpp:164-190 | each appended record is live and of the size of the output it was made for |
| LifecycleFacts.AddOutputsKeepsRecords | src/model_process.cpp:164-190 | records live before the loop stay live and unchanged |
| LifecycleFacts.CreateOutputRefused | src/model_process.cpp:151-154 | without a descriptor CreateOutput fails and changes nothing |
| LifecycleFacts.CreateOutputSized | src/model_process.cpp:148-194 | the output dataset holds live records, record k of output k's size, exactly one per output on success; on failure those added stay |
| LifecycleFacts.TeardownClears | src/model_process.cpp:24-30 | teardown leaves no model, descriptor, input or output; pointers are nulled only if a model was loaded |
| LifecycleFacts.TeardownLeaks | src/model_process.cpp:24-30 | after a failed load, the buffers left in the fields are still live after teardown |
| LifecycleFacts.TeardownIdempotent | src/model_process.cpp:24-30 | tearing down a torn-down instance changes nothing |
| ModelProcessing.ModelProcess.constructor | src/model_process.cpp:19-22 | every field null, zero or false |
| ModelProcessing.ModelProcess.LoadModelFromFileWithMem | src/model_process.cpp:33-75 | status, fields and runtime state are exactly Lifecycle.Load of the old ones |
| ModelProcessing.ModelProcess.LoadWork | src/model_process.cpp:50-74 | status, fields and state are exactly Lifecycle.LoadWork |
| ModelProcessing.ModelProcess.LoadWeight | src/model_process.cpp:56-74 | status, fields and state are exactly Lifecycle.LoadWeight |
| ModelProcessing.ModelProcess.CreateDesc | src/model_process.cpp:78-97 | status, fields and state are exactly Lifecycle.CreateDesc |
| ModelProcessing.ModelProcess.DestroyDesc | src/model_process.cpp:99-105 | fields and state are exactly Lifecycle.DestroyDesc |
| ModelProcessing.ModelProcess.CreateInput | src/model_process.cpp:108-132 | status, fields and state are exactly Lifecycle.CreateInput |
| ModelProcessing.ModelProcess.DestroyInput | src/model_process.cpp:134-146 | the loop over the input records gives exactly Lifecycle.DestroyInput |
| ModelProcessing.ModelProcess.CreateOutput | src/model_process.cpp:148-194 | the loop over the descriptor's outputs gives exactly Lifecycle.CreateOutput |
| ModelProcessing.ModelProcess.AddOutput | src/model_process.cpp:166-189 | one loop body gives exactly Lifecycle.OutputIter |
| ModelProcessing.ModelProcess.OutputModelResult | src/model_process.cpp:248-304 | the loop over the output records yields exactly the reports and state of Reporting.OutputModelResult |
| ModelProcessing.ModelProcess.ReportBuffer | src/model_process.cpp:253-299 | one loop body yields exactly Reporting.Report |
| ModelProcessing.ModelProcess.DestroyOutput | src/model_process.cpp:306-321 | the loop over the output records gives exactly Lifecycle.DestroyOutput |
| ModelProcessing.ModelProcess.Execute | src/model_process.cpp:323-334 | status and state are exactly Lifecycle.Execute |
| ModelProcessing.ModelProcess.Unload | src/model_process.cpp:336-367 | fields and state are exactly Lifecycle.Unload |
| ModelProcessing.ModelProcess.DropModel | src/model_process.cpp:343-351 | fields and state are exactly Lifecycle.DropModel |
| ModelProcessing.ModelProcess.FreeWork | src/model_process.cpp:353-357 | fields and state are exactly Lifecycle.FreeWork |
| ModelProcessing.ModelProcess.FreeWeight | src/model_process.cpp:359-363 | fields and state are exactly Lifecycle.FreeWeight |
| ModelProcessing.ModelProcess.Teardown | src/model_process.cpp:24-30 | fields and state are exactly Lifecycle.Teardown, and the invariant holds after |
| Ranking.Scores | src/model_process.cpp:279-282 | a buffer of len bytes holds len / sizeof(float) scores |
| Ranking.RankMapContents | src/model_process.cpp:278-282 | the map has exactly one key per distinct score, whose value is the last position holding that score |
| Ranking.SetMax | src/model_process.cpp:285 | the first key of the descending iteration is in the map and at least every other key |
| Ranking.ListingLength | src/model_process.cpp:284-292 | the iteration stopped after k reports lists min(k, number of keys) entries |
| Ranking.ListingScores | src/model_process.cpp:284-292 | every listed entry is a map entry |
| Ranking.ListingDescending | src/model_process.cpp:284-292 | listed scores strictly descend |
| Ranking.ListingComplete | src/model_process.cpp:284-292 | a key left out is below every listed key, and keys are left out only when k are listed |
| Ranking.TopFiveSpec | src/model_process.cpp:278-292 | the report has min(5, distinct scores) entries, strictly descending, each with its score's last position, and any unreported score is below every reported one |
| Ranking.EqualScoresCollapse | src/model_process.cpp:278-282 | a score seen at positions 0 and 1 is reported once, at position 1 |
| Ranking.RankTopFive | src/model_process.cpp:278-292 | the insertion loop and the counted iteration compute exactly TopFive |
| Reporting.OutputBytes | src/model_process.cpp:254-255 | a record's reported bytes number its size truncated to 32 bits |
| Reporting.Report | src/model_process.cpp:253-299 | one output ranked; device memory, records, datasets, descriptors and models unchanged (host mode stages through host memory); the state stays valid |
| Reporting.Reports | src/model_process.cpp:251-300 | one report per record until the first failure; device memory, records and datasets unchanged |
| Reporting.OutputModelResult | src/model_process.cpp:248-304 | the reports of the output dataset (none for a dead handle); device memory, records and datasets unchanged |
| Reporting.ReportRanks | src/model_process.cpp:253-276 | a report is the top five of the record's output bytes, whichever memory they are read from; device mode always succeeds without a runtime call |
| Reporting.ReportStaging | src/model_process.cpp:260-299 | host mode fails exactly when the allocation or the copy fails; success frees the staging buffer; a failed copy leaks it |
| Reporting.Ranked | src/model_process.cpp:251-300 | the rankings of the remaining records, one per record |
| Reporting.ReportsRank | src/model_process.cpp:251-300 | the reports are a prefix of the rankings of the output bytes, all of them exactly when the run completes |
| Reporting.ReportsRestoreHost | src/model_process.cpp:251-300 | a completed run leaves host memory as it was; a device-mode run always completes and changes nothing |
| Reporting.ModesAgree | src/model_process.cpp:260-276 | host-mode reports are a prefix of the device-mode reports, and equal when the run completes |
| FileTransfer.FileLength | src/utils.cpp:41-42 | the length as a uint32_t: at most the file's bytes, below 2^32, and the true length when it fits |
| FileTransfer.ReadBinFile | src/utils.cpp:20-79 | success exactly when the buffer is non-null; then the file is regular, the size its uint32_t length, and the buffer that size, in host or device memory by mode; nothing but memory changes |
| FileTransfer.GetDeviceBufferOfFile | src/utils.cpp:82-120 | success exactly when the buffer is non-null; then the file is regular and the size its uint32_t length; nothing but memory changes |
| FileTransfer.Stage | src/utils.cpp:93-113 | host mode's copy into a new device buffer: non-null exactly on success, of the staged size |
| FileTransfer.Copy | src/utils.cpp:101-113 | the copy returns the device buffer on success and null on failure |
| FileTransfer.ReadBinFileRejects | src/utils.cpp:24-47 | a missing, non-regular, unopenable or empty file gives null with no runtime call and no state change |
| FileTransfer.ReadBinFileLoads | src/utils.cpp:54-78 | a successful read allocates one new buffer, host memory in host mode and device memory in device mode, holding the file's bytes |
| FileTransfer.ReadBinFileFailure | src/utils.cpp:20-79 | a failed read leaves host and device memory as they were |
| FileTransfer.StageFailure | src/utils.cpp:96-110 | a failed malloc or copy frees the staging buffer and any new device buffer |
| FileTransfer.StageSuccess | src/utils.cpp:103-113 | a successful copy frees the staging buffer and leaves one new device buffer holding its bytes |
| FileTransfer.TransferLeaksNothing | src/utils.cpp:82-120 | on failure host and device memory are exactly as they were |
| FileTransfer.TransferDelivers | src/utils.cpp:82-120 | on success, in either mode, exactly one new device buffer holds the file's bytes and host memory is as it was |
| FileTransfer.DeviceModeDirect | src/utils.cpp:114-116 | in device mode the ReadBinFile buffer and size are returned unchanged |
| Utils.ReadBinFile | src/utils.cpp:20-79 | handle, size and new runtime state are exactly FileTransfer.ReadBinFile |
| Utils.GetDeviceBufferOfFile | src/utils.cpp:82-120 | handle, size and new runtime state are exactly FileTransfer.GetDeviceBufferOfFile |
| Utils.Stage | src/utils.cpp:93-113 | handle, size and new runtime state are exactly FileTransfer.Stage |
| SampleProcessing.Status | src/sample_process.cpp:84-149 | Process returns SUCCESS exactly when it completes the loop |
| SampleProcessing.Loop | src/sample_process.cpp:115-145 | the files from i on: completes with one report per file, device memory as it found it and no input bound, or fails at a later file with one report per file before it; ownership kept |
| SampleProcessing.Iteration | src/sample_process.cpp:119-124 | a failed fetch stops at this file with host and device memory untouched |
| SampleProcessing.Bound | src/sample_process.cpp:126-131 | a failed CreateInput frees the file's buffer before returning |
| SampleProcessing.Infer | src/sample_process.cpp:133-137 | a failed Execute returns with the fields, device memory, records and datasets unchanged: the buffer stays allocated and the input bound |
| SampleProcessing.Release | src/sample_process.cpp:139-145 | after this file's report, a failure can only come at a later file |
| SampleProcessing.Released | src/sample_process.cpp:141-144 | one report, the file's buffer freed, the input destroyed and its field nulled, ownership kept |
| SampleProcessing.Session | src/sample_process.cpp:86-148 | a stop before the loop has no report; otherwise one report per completed file; ownership kept |
| SampleProcessing.Described | src/sample_process.cpp:95-148 | after the load, the session never reports a load failure, with the report count of Session |
| SampleProcessing.Prepared | src/sample_process.cpp:101-148 | after the descriptor, only an output failure stops before the loop; completion leaves no input bound |
| SampleProcessing.Processed | src/sample_process.cpp:84-149 | the session and then teardown keep the ownership invariant |
| SampleProcessing.InputAddEffect | src/model_process.cpp:123-129 | on an empty input the record is added, or destroyed again |
| SampleProcessing.InputRecordEffect | src/model_process.cpp:117-129 | one new record, added on success and gone again on failure |
| SampleProcessing.CreateInputSucceeds | src/model_process.cpp:108-132 | success adds exactly one new dataset holding one new record over the buffer |
| SampleProcessing.CreateInputFails | src/model_process.cpp:108-132 | failure keeps the records and leaves at most a new empty dataset in the field |
| SampleProcessing.CreateInputKeepsUnheld | src/model_process.cpp:108-132 | binding does not make the instance hold the buffer it borrows |
| SampleProcessing.FetchKeepsInv | src/sample_process.cpp:119-124 | the fetch keeps ownership, and a fetched buffer is live and held by no field |
| SampleProcessing.BindKeepsReady | src/sample_process.cpp:126-131 | binding keeps ownership; on failure freeing the buffer keeps it too |
| SampleProcessing.ReleaseKeepsReady | src/sample_process.cpp:141-144 | reporting, freeing the buffer and destroying the input keep ownership; the outputs are readable |
| SampleProcessing.Process | src/sample_process.cpp:84-149 | outcome, reports and runtime state are exactly Processed: the session, then teardown |
| SampleProcessing.Drive | src/sample_process.cpp:87-94 | outcome, reports, fields and state are exactly Session |
| SampleProcessing.Describe | src/sample_process.cpp:95-100 | outcome, reports, fields and state are exactly Described |
| SampleProcessing.Prepare | src/sample_process.cpp:101-106 | outcome, reports, fields and state are exactly Prepared |
| SampleProcessing.ProcessFiles | src/sample_process.cpp:109-146 | the for loop over the files yields exactly Loop from the first file |
| SampleProcessing.ProcessFile | src/sample_process.cpp:115-124 | one iteration: a failure ends where Iteration ends, a completion leads on to the next file |
| SampleProcessing.BindInput | src/sample_process.cpp:126-131 | as Bound, on the objects |
| SampleProcessing.RunModel | src/sample_process.cpp:132-137 | as Infer, on the objects |
| SampleProcessing.ReleaseInput | src/sample_process.cpp:139-144 | reports, fields and state are exactly Released |
| SampleProcessFacts.LoadFirst | src/sample_process.cpp:89-94 | the session stops at the load exactly when the load fails |
| SampleProcessFacts.DescribeNext | src/sample_process.cpp:95-100 | after the load, the session stops at the descriptor exactly when CreateDesc fails |
| SampleProcessFacts.OutputsNext | src/sample_process.cpp:101-106 | after the descriptor, the session stops at the outputs exactly when CreateOutput fails |
| SampleProcessFacts.LoopCount | src/sample_process.cpp:110-148 | success exactly on completion, with one report per file, two in all; a failure at file k has the reports of the k files before it; a stop before the loop has none |
| SampleProcessFacts.TornDown | src/sample_process.cpp:84-149 | on every return, teardown leaves no model loaded, no descriptor and no datasets |

## Left out

- `SampleProcess::InitResource`/`DestroyResource` and src/main.cpp are not modelled. They set up and tear down the device, context and stream around the vendor runtime.
- `ModelProcess::DumpModelOutputResult` is not modelled: it writes files.
- The logging and printing of reports are left out. The reports are returned as values instead.
- The effect of `aclmdlExecute` on the output bytes is not modelled. It is a foreign call; here it is an outcome that changes no ownership. `aclmdlGetDesc` is modelled only as far as CreateOutput uses it: it fills the descriptor with the loaded model's output sizes (`AclModel.GetDesc`). The other descriptor contents are not modelled.
- A failed `aclrtMalloc`, `aclrtMallocHost`, `aclmdlLoadFromFileWithMem` or `aclmdlCreateDesc` is assumed to leave a null handle (or model id zero) in its out-parameter. The source passes the fields' own addresses (model_process.cpp:50, 56, 65), so what they hold after a failure depends on the runtime. The model stores that null in the field.
- A failed `aclmdlQuerySize` is assumed to leave both size fields as they were.
- Fresh device and host buffers are assumed to hold zero bytes (`AclModel.Zeros`). `Reporting.ReportStaging` relies on this for the contents of a staging buffer.
- The unchecked `binFile.read` (utils.cpp:75) is assumed to fill all the bytes asked for, and `tellg` (utils.cpp:42) is assumed not to fail. `FileTransfer.TransferDelivers` relies on both.
- Scores are integers read from four little-endian bytes, standing in for floats. Float ordering, NaN and signed zero are not modelled.
- The global `g_isDevice` is the parameter `onDevice`. The file system is a map parameter, and the offline model file is the abstract `ModelImage`.
- The return codes of `aclrtFree`, `aclrtFreeHost`, `aclmdlDestroyDesc`, `aclmdlDestroyDataset` and `aclDestroyDataBuffer` are not modelled: these calls always release. The model requires the handle they release to be live (so no double free is proved).
- The check at model_process.cpp:177 tests the allocation's status again, so it never fires. It is not modelled as a branch: a failed `aclCreateDataBuffer` passes a null record to `aclmdlAddDatasetBuffer`, which refuses it.
- OutputModelResult's return on a failed device-to-host copy leaks the staging buffer. This is modelled as written (`Reporting.ReportStaging`). The driver ignores whatever OutputModelResult returns.
- A failed `ReadBinFile`, `GetDeviceBufferOfFile` or `Stage` reports the size 0, as its result `(Null, 0)`. The source leaves the `fileSize` out-parameter unset in those cases (utils.cpp:89, 100, 109).
- The file length read by `tellg` is modelled as the byte count modulo 2^32, as stored in a `uint32_t`.
- Several source methods are split into stage methods (LoadWork, LoadWeight, AddOutput, ReportBuffer, DropModel, FreeWork, FreeWeight, Stage; Drive, Describe, Prepare, ProcessFile, BindInput, RunModel, ReleaseInput). Together they run the same calls in the same order.
- AclRuntime.Runtime.CreateDesc, CreateDataset and CreateDataBuffer, ModelProcessing.ModelProcess.CreateDesc, CreateInput, CreateOutput and AddOutput, and Utils.ReadBinFile and GetDeviceBufferOfFile require the runtime's next handle to be non-null. This lets them state that null means failure; every valid runtime state meets it.
- Concurrency, streams and multiple devices are out of scope: the runtime is single-threaded.
