# ImageJ gateway and ImageJ1 macro runner, modelled in Dafny

This project models two pieces of the KNIME Image Processing bridge to ImageJ.

**`ImageJ2Gateway`** (`ij_gateway.dfy`) models `IJGateway`. This is the process-wide gateway to the ImageJ2 context. When it is constructed it:

- builds the context's service list;
- asks the module service for every module;
- keeps the modules the host can run (`findSupportedModules`);
- indexes the kept modules by delegate class name.

The model represents the parts as follows:

- Java classes are opaque `ClassTag`s.
- `isAssignableFrom` is an abstract relation (`TypeHierarchy`). It is reflexive, and otherwise it is a given set of pairs.
- The adapter provider's known service, input and output types are finite data.
- The object service becomes an object count per type.
- A module is a record holding its delegate class name, its headless flag, the outcome of loading its delegate class, its input and output types in order, and whether inspecting it throws.
- The static `instance` field and the static accessors become the class `GatewaySingleton`.

**`ImageJ1Macro`** (`ij_macro.dfy`) models `IJMacro`. This class runs an ImageJ1 macro on named host images. The ImageJ1 statics become an object of class `ImageJ1`:

- the interpreter's batch-mode flag;
- the list of batch-mode images;
- the system results table.

A ghost event log on that object records, in order, the registrations of batch-mode images, the macro run, the removals, the closes and `closeAllWindows`. The results-table reset is not logged: it shows as the 0-row count the run starts from. `runOn` then runs as a sequence of steps:

1. Stage every input, titled with its map key.
2. Reset the shared results table.
3. Run the macro.
4. Resolve the result. The result is the last batch-mode image, matched to an input by title.
5. Clean up. The current image is removed until none is left.

The macro interpreter is a parameter (`MacroRun`). It gives the images the run leaves, the table's row count, and whether the run throws.

`Wrappers` (`wrappers.dfy`) holds `Option` (Java `null`) and `Result` (a Java exception).

## Behaviour worth noting

- **Clean-up after a failed run.** The clean-up (IJMacro.java:151-157) is not in a `finally` block, so a macro that throws at IJMacro.java:123 leaves its staged images behind. `IJMacro.RunOnAll` states this: on a throwing run, the batch-mode images are whatever the run left.
- **Input type tests.** Only the dialog types and the GUI services are tested by assignability (IJGateway.java:366-377). The adapter provider's service types and input types are tested by exact membership (IJGateway.java:380-387).

## Model

| member | source | states |
|---|---|---|
| `ImageJ2Gateway.IsIJDialogInputType` | org.knime.knip.imagej2.core/src/org/knime/knip/imagej2/core/IJGateway.java:260-268 | The loop's flag is true exactly when some dialog type is assignable from the type. This is the first disjunct of input support. |
| `ImageJ2Gateway.IsSupportedInputType` | org.knime.knip.imagej2.core/src/org/knime/knip/imagej2/core/IJGateway.java:363-402 | The early-returning scans give true iff one of five things holds: a dialog type is assignable from the type; a GUI service type is assignable from it; it is exactly a known service type; it is exactly a known input type; or the object catalogue holds more than 0 objects of that type. |
| `ImageJ2Gateway.FindSupportedModules` | org.knime.knip.imagej2.core/src/org/knime/knip/imagej2/core/IJGateway.java:279-327 | The nested loops, with their flags, breaks and the try/catch, return exactly the candidates that pass the acceptance test, in candidate order. |
| `ImageJ2Gateway.SupportedModulesSound` | org.knime.knip.imagej2.core/src/org/knime/knip/imagej2/core/IJGateway.java:283-316 | A discovered module is a candidate that can run headless and whose delegate class loaded and is not a DynamicCommand. Its inspection did not throw. Every input type is supported, every output type is a known output type, and it has at least one input or output. |
| `ImageJ2Gateway.SupportedModulesComplete` | org.knime.knip.imagej2.core/src/org/knime/knip/imagej2/core/IJGateway.java:281-316 | Every candidate that passes all the tests is discovered. |
| `ImageJ2Gateway.SupportedModulesIsSubsequence` | org.knime.knip.imagej2.core/src/org/knime/knip/imagej2/core/IJGateway.java:279-326 | The discovered list is an order-preserving subsequence of the candidate list. |
| `ImageJ2Gateway.SupportedModulesAppend` | org.knime.knip.imagej2.core/src/org/knime/knip/imagej2/core/IJGateway.java:281-324 | Each candidate is judged on its own. Discovery over a concatenation is the concatenation of the two discoveries. |
| `ImageJ2Gateway.RejectedCandidateIsSkipped` | org.knime.knip.imagej2.core/src/org/knime/knip/imagej2/core/IJGateway.java:281-324 | A candidate that fails the acceptance test is dropped, and the result for the other candidates is as if it were absent. |
| `ImageJ2Gateway.DynamicPluginIsSkipped` | org.knime.knip.imagej2.core/src/org/knime/knip/imagej2/core/IJGateway.java:335-353 | A candidate whose delegate class fails to load, or is a DynamicCommand, is a dynamic plugin. Discovery (line 284) drops it without changing the result for the others. |
| `ImageJ2Gateway.UnsupportedOutputIsSkipped` | org.knime.knip.imagej2.core/src/org/knime/knip/imagej2/core/IJGateway.java:410-418 | An output type counts as supported only if it is one of the adapter provider's known output types. Discovery (lines 302-312) drops a candidate with one unsupported output without changing the result for the others. |
| `ImageJ2Gateway.MultipleChoiceInput` | org.knime.knip.imagej2.core/src/org/knime/knip/imagej2/core/IJGateway.java:389-402 | A type with at least one object in the object service is a multiple-choice object and so a supported input. A type that no dialog type, GUI service or adapter covers is supported exactly when the object service holds an object of it. |
| `ImageJ2Gateway.ThrowingCandidateIsSkipped` | org.knime.knip.imagej2.core/src/org/knime/knip/imagej2/core/IJGateway.java:289-321 | A candidate whose inspection throws is dropped, and the result for the other candidates is as if it were absent. |
| `ImageJ2Gateway.SupportedModulesIdempotent` | org.knime.knip.imagej2.core/src/org/knime/knip/imagej2/core/IJGateway.java:279-327 | Running discovery on its own result gives that result again. |
| `ImageJ2Gateway.IndexKeys` | org.knime.knip.imagej2.core/src/org/knime/knip/imagej2/core/IJGateway.java:218-221 | The index's keys are exactly the delegate class names of the supported modules. |
| `ImageJ2Gateway.IndexSound` | org.knime.knip.imagej2.core/src/org/knime/knip/imagej2/core/IJGateway.java:218-221 | Each key maps to a supported module with that delegate class name. |
| `ImageJ2Gateway.IndexLaterWins` | org.knime.knip.imagej2.core/src/org/knime/knip/imagej2/core/IJGateway.java:219-221 | A module with no later module of the same name is the one its name maps to, so among modules sharing a name the last one wins. |
| `ImageJ2Gateway.GetImageJContextServices` | org.knime.knip.imagej2.core/src/org/knime/knip/imagej2/core/IJGateway.java:423-445 | The list is the adapter service types, then the 7 headless services, then, only when not headless, the 10 GUI services, each group in array order. |
| `ImageJ2Gateway.IJGateway.constructor` | org.knime.knip.imagej2.core/src/org/knime/knip/imagej2/core/IJGateway.java:184-222 | After construction the service list, the supported modules and the delegate-name index are the specified ones (`Valid`). |
| `ImageJ2Gateway.IJGateway.GetModuleInfo` | org.knime.knip.imagej2.core/src/org/knime/knip/imagej2/core/IJGateway.java:250-252 | A lookup gives a supported module with the requested delegate class name. It gives none exactly when no supported module has that name. The version argument plays no part. |
| `ImageJ2Gateway.GatewaySingleton.constructor` | org.knime.knip.imagej2.core/src/org/knime/knip/imagej2/core/IJGateway.java:134 | No gateway exists initially. |
| `ImageJ2Gateway.GatewaySingleton.CreateHeadlessInstance` | org.knime.knip.imagej2.core/src/org/knime/knip/imagej2/core/IJGateway.java:162-166 | An existing instance is kept. Otherwise a fresh headless gateway becomes the instance. |
| `ImageJ2Gateway.GatewaySingleton.GetInstance` | org.knime.knip.imagej2.core/src/org/knime/knip/imagej2/core/IJGateway.java:172-179 | Always returns a (non-null) instance. An existing instance is returned unchanged. Otherwise a fresh non-headless gateway is created and kept. |
| `ImageJ2Gateway.GatewaySingleton.GetSupportedModules` | org.knime.knip.imagej2.core/src/org/knime/knip/imagej2/core/IJGateway.java:241-243 | Returns the singleton's discovered modules and keeps an existing instance. On first use the singleton is a fresh non-headless gateway built from the given runtime, so the result is discovery over that runtime's modules. |
| `ImageJ2Gateway.GatewaySingleton.GetModuleInfo` | org.knime.knip.imagej2.core/src/org/knime/knip/imagej2/core/IJGateway.java:250-252 | The static lookup goes through the singleton and gives that gateway's answer. An existing instance is kept. On first use the lookup runs on a fresh non-headless gateway built from the given runtime. |
| `ImageJ1Macro.IJMacro.constructor` | org.knime.knip.imagej1/src/org/knime/knip/imagej1/IJMacro.java:87-90 | The code is stored unchanged, batch mode is switched on, and the images are untouched. |
| `ImageJ1Macro.IJMacro.RunOn` | org.knime.knip.imagej1/src/org/knime/knip/imagej1/IJMacro.java:99-103 | Requires batch mode, which the constructor switches on. Exactly one image is staged, titled "A". The rest of the outcome is that of `RunOnAll` on the one-entry map. |
| `ImageJ1Macro.StagingOfSingle` | org.knime.knip.imagej1/src/org/knime/knip/imagej1/IJMacro.java:100-102 | Staging a one-entry map under "A" produces exactly one image, titled "A". |
| `ImageJ1Macro.IJMacro.RunOnAll` | org.knime.knip.imagej1/src/org/knime/knip/imagej1/IJMacro.java:106-161 | Requires batch mode, which the constructor switches on. The calls happen in order: every input is registered, then the macro runs on an empty table with exactly those images added, then (unless the run throws) the current images are removed and closed, then all windows are closed. `resTable` is the system table. If the run throws, the clean-up is skipped and the result image is unchanged. Otherwise no batch-mode image is left, the returned type is specified as in `Resolve`, and so is the result image. |
| `ImageJ1Macro.IJMacro.Stage` | org.knime.knip.imagej1/src/org/knime/knip/imagej1/IJMacro.java:113-118 | One image per map entry is appended and registered, titled with its key, converted from its value. Titles are distinct and every key is staged. |
| `ImageJ1Macro.IJMacro.Resolve` | org.knime.knip.imagej1/src/org/knime/knip/imagej1/IJMacro.java:125-148 | With no last batch-mode image, the result image is unchanged and the caller's type is returned. Otherwise the type is the caller's, or the inferred one when the caller gave none. The result has the matched input's dimensionality if its title is an input key; otherwise it keeps the -1 target, i.e. its own dimensionality. Its metadata comes only from a matched input that carries metadata. |
| `ImageJ1Macro.IJMacro.CleanUp` | org.knime.knip.imagej1/src/org/knime/knip/imagej1/IJMacro.java:152-157 | The loop ends with an image count of 0. Each iteration removes one image equal to the current image and closes it, so each image present is removed exactly once (as a multiset). The order among value-equal images is the point noted for `ImageJ1.RemoveBatchModeImage` under Left out. The loop terminates because the count decreases. |
| `ImageJ1Macro.RemoveFirst` | org.knime.knip.imagej1/src/org/knime/knip/imagej1/IJMacro.java:154 | Removing a present image drops exactly one occurrence of it, so the count decreases by one. Removing an absent image changes nothing. |
| `ImageJ1Macro.ImageJ1.AddBatchModeImage` | org.knime.knip.imagej1/src/org/knime/knip/imagej1/IJMacro.java:116 | The image is appended to the batch-mode images. |
| `ImageJ1Macro.ImageJ1.RemoveBatchModeImage` | org.knime.knip.imagej1/src/org/knime/knip/imagej1/IJMacro.java:154 | The first occurrence of the image is taken out of the batch-mode images, the removal is logged, and batch mode is unchanged. |
| `ImageJ1Macro.ImageJ1.Close` | org.knime.knip.imagej1/src/org/knime/knip/imagej1/IJMacro.java:155 | The close is logged. The batch-mode images and batch mode are unchanged. |
| `ImageJ1Macro.ImageJ1.CloseAllWindows` | org.knime.knip.imagej1/src/org/knime/knip/imagej1/IJMacro.java:157 | The call is logged after everything before it. The batch-mode images and batch mode are unchanged. |
| `ImageJ1Macro.IJMacro.ResImgPlus` | org.knime.knip.imagej1/src/org/knime/knip/imagej1/IJMacro.java:166-168 | Returns the result image that the last run stored (none before any run, by the constructor). |
| `ImageJ1Macro.IJMacro.ResTable` | org.knime.knip.imagej1/src/org/knime/knip/imagej1/IJMacro.java:173-175 | Returns the results table that the last run stored: null before any run, otherwise the system table. The class invariant `Valid`, set up by the constructor and kept by `RunOn` and `RunOnAll`, guarantees this. |
| `ImageJ1Macro.ImageJ1.RunMacro` | org.knime.knip.imagej1/src/org/knime/knip/imagej1/IJMacro.java:123 | Records the table's row count and the images at the start of the run, then leaves what the run produced. |
| `ImageJ1Macro.ResultsTable.Reset` | org.knime.knip.imagej1/src/org/knime/knip/imagej1/IJMacro.java:119 | The table has no rows afterwards. |

## Left out

- Creating the ImageJ context, injecting its services and forcing the lazy start of SingletonServices (IJGateway.java:186-207). What the context yields is the `Runtime` parameter.
- The lazy fields `m_objectService` and `m_moduleService`. The model reads the object counts and the module list from `Runtime` directly.
- The AppService version lookup, `getImageJVersion` and `getImageJContext`. They are foreign lookups with no logic.
- Class loading and reflection in `isDynamicPlugin`. The model has only the outcome: `Loaded(isDynamicCommand)` or `LoadFailed`, and a failure counts as dynamic. The non-CommandInfo path, where a class that cannot be loaded would fail outside the `try`, is not modelled.
- Exceptions raised outside the `try` in `findSupportedModules` (by `canRunHeadless` or `isDynamicPlugin`) are not modelled. Inside the `try`, the point at which inspection throws is not modelled either, because it does not change the outcome.
- The `synchronized` methods and the `synchronized (m_resTable)` block. They are concurrency, and only the sequential behaviour is modelled.
- Logging (`LOGGER.error`), `printStackTrace` and the log-level system property.
- The pixel conversions `ImgToIJ` and `IJToImg`. They are modelled by shape only: title, number of dimensions and pixel type, where a target of -1 keeps the image's own dimensionality.
- The macro interpreter itself. Its effect is the parameter `MacroRun`.
- ImageJ1.RemoveBatchModeImage: images are values, not objects with an identity. Removal takes out the first value-equal image, where the source removes the very ImagePlus passed. When the macro leaves two images with equal title, dimensionality and pixel type, the clean-up removes and closes them in a different order from the source; the empty final list and the multiset of removed images are unaffected.
- ImageJ1.RunMacro: the run is taken not to change the interpreter's batch-mode flag, the temporary current image or the windows. A macro that calls `setBatchMode(false)` would turn batch mode off and leave the clean-up loop (IJMacro.java:152-156) working on windows; the model keeps batch mode on across the run, so `RunOn` and `RunOnAll` promise an unchanged flag.
- ToForeign and ToHost: the conversions `ImgToIJ` (IJMacro.java:114) and `IJToImg` (IJMacro.java:137-138) are taken never to throw. If one did, `runOn` would exit like a throwing macro and leave the staged images behind.
- `WindowManager.setTempCurrentImage`. The current image is taken to be the most recent batch-mode image.
- Windows outside batch mode. `ImagePlus.close()` and `WindowManager.closeAllWindows()` are only recorded; the removal from the batch-mode list is what lowers the image count.
- The results table's contents. Only its row count is modelled.
- `AbstractIJNodeDialog` (dialog construction and settings persistence) and `FloatArrayInputAdapter` (a floating-point cast in an adapter) are not part of this model.
