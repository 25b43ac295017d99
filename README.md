# MMDAI core, modelled in Dafny

This project models the bookkeeping at the heart of MMDAI, a MikuMikuDance-style
application. MMDAI loads 3D models (PMD, PMX, assets) and their motions (VMD, MVD) and renders
them. The Dafny modules follow the program's own files:

| module | file | what it models |
|---|---|---|
| `Common` | (shared) | `Option`, bytes, `QList::removeOne` as `RemoveFirst`, distinctness lemmas, the decimal text of a number |
| `Util` | util.dfy | VPVM's conversions between Qt and vpvl2 strings, vectors, colours and quaternions |
| `Preferences` | preference.dfy | VPVM's `Preference`: QSettings getters with defaults and write-on-change setters, over an INI store that reads numbers back as text |
| `ModelFactory` | factory.dfy | vpvl2's `Factory`: choosing the model and motion codec from the leading bytes |
| `Scene` | scene_loader.dfy | QMA1's `SceneLoader`: the registry of models by name and of motions by model |
| `RenderEngine` | render_engine.dfy | vpvl2's Cg `PMDRenderEngine`: texture and sphere-map selection, face culling, index-buffer offsets, toon colours |
| `ProjectObjects` | project_objects.dfy | the objects the project registry handles: models, motions, undo stacks, bone and model/motion proxies |
| `ProjectRegistry` | project_registry.dfy | the registry state of VPVM's `ProjectProxy` as a value. Also its consistency invariant, the effect of each operation as a function, and the lemmas about them |
| `Project` | project_proxy.dfy | VPVM's `ProjectProxy` as a class. Each method ensures that its new registry state is the matching `ProjectRegistry` function of the old one |

Objects the program updates in place are classes here: `ProjectProxy`, `SceneLoader`,
`Preference`, `Factory`, `PMDRenderEngine` and `BoneRefObject`. Their hashes and lists are
`map` and `seq` fields. The render engine's texture and toon-colour buffers are arrays.

The project registry is what `ProjectProxy` keeps in step:
- the model list;
- the two model hashes (by instance and by UUID);
- the motion list;
- the motion-to-undo-stack hash;
- the two motion hashes;
- each model's child motion and each motion's parent model;
- the current model, the current motion and the active undo stack.

`ProjectRegistry.Consistent` states the invariant that `addModel`, `deleteModel`,
`createMotionProxy`, `deleteMotion`, the selection setters and `release` preserve:
- the two model hashes index exactly the model list, each model under its own instance and UUID;
- the motion-to-undo-stack hash holds every listed motion, and the two motion hashes index exactly its keys (a motion leaves the list at `release` but stays in the hashes);
- no two registered motions share an undo stack;
- lists have no duplicates;
- child links point at registered motions;
- the active undo stack is that of the current motion.

The following are parameters of the operations:
- the fresh UUIDs `QUuid::createUuid` would draw;
- whether a file loads, and the objects a successful load allocates;
- the codecs' `load` results;
- the delegate's texture uploads and toon colours;
- the screen's available size;
- the platform.

## Model

| member | source | states |
|---|---|---|
| Util.ToQStringFromUnicode | VPVM/Util.cc:54-58 | QString::fromUtf16 over the code units: without a leading byte-order mark the units are kept in order; a leading U+FEFF is dropped; a leading U+FFFE is dropped and every remaining unit is byte-swapped |
| Util.SwapAll | VPVM/Util.cc:57 | after a leading U+FFFE, fromUtf16 reads every unit with its two bytes exchanged: same length, unit i swapped |
| Util.StartsWithMark | VPVM/Util.cc:57 | a leading mark in either byte order is still a mark once its bytes are swapped |
| Util.FromQString | VPVM/Util.cc:65-69 | the UnicodeString has the QString's length and code units in order |
| Util.ToQString | VPVM/Util.cc:49-52 | a null IString gives the empty string, otherwise its UnicodeString converted |
| Util.EqualsString | VPVM/Util.cc:60-63 | a null rhs equals only the empty string; without a leading byte-order mark, true exactly when lhs has rhs's code units; behind a U+FEFF, exactly when lhs has the units after it; behind a U+FFFE, exactly when lhs has the units after it byte-swapped |
| Util.UnicodeRoundTrip | VPVM/Util.cc:54-69 | fromQString undoes toQString(UnicodeString) for text without a leading byte-order mark |
| Util.MarkedUnicodeRoundTrip | VPVM/Util.cc:54-69 | text behind a U+FEFF comes back without the mark; text behind a U+FFFE comes back without it and byte-swapped, and swapping again restores it |
| Util.SwapAllTwice | VPVM/Util.cc:54-58 | exchanging the bytes of every unit twice gives the units back |
| Util.QStringRoundTrip | VPVM/Util.cc:54-69 | toQString(UnicodeString) undoes fromQString for a QString without a leading byte-order mark |
| Util.EqualsStringOfConverted | VPVM/Util.cc:60-69 | a string compares equal to a converted text without a leading byte-order mark exactly when it is that text |
| Util.EqualsStringIgnoresLeadingMark | VPVM/Util.cc:54-63 | a text equals the IString of the same text behind a U+FEFF: the mark is invisible to equalsString |
| Util.ToVector3 | VPVM/Util.cc:71-74 | x, y and z are copied in order |
| Util.FromVector3 | VPVM/Util.cc:76-79 | x, y and z are copied in order, and toVector3 undoes it |
| Util.VectorRoundTrip | VPVM/Util.cc:71-79 | fromVector3 undoes toVector3 |
| Util.ToQuaternion | VPVM/Util.cc:91-94 | (x, y, z, scalar) goes to (x, y, z, w) |
| Util.FromQuaternion | VPVM/Util.cc:96-99 | w goes back to scalar, and toQuaternion undoes it |
| Util.QuaternionRoundTrip | VPVM/Util.cc:91-99 | fromQuaternion undoes toQuaternion |
| Util.ChannelF | VPVM/Util.cc:81-84 | a 16-bit channel (0 to 65535) as a real in [0, 1], exactly channel / 65535 |
| Util.RoundNonNegative | VPVM/Util.cc:86-89 | QColor::fromRgbF's rounding: the nearest integer, halves up |
| Util.FromRgbF | VPVM/Util.cc:86-89 | QColor::fromRgbF: valid, with alpha 65535, exactly when every component lies in [0, 1]; every channel is at most 65535 |
| Util.ToColor | VPVM/Util.cc:81-84 | red, green and blue go to x, y and z as fractions of 65535; an invalid colour gives zeros |
| Util.FromColor | VPVM/Util.cc:86-89 | x, y and z go to red, green and blue; valid exactly when each lies in [0, 1] |
| Util.ChannelRoundTrip | VPVM/Util.cc:81-89 | a channel survives conversion to a fraction and back |
| Util.ColorRoundTrip | VPVM/Util.cc:81-89 | fromColor undoes toColor for an opaque valid colour |
| Util.ChannelQuantisation | VPVM/Util.cc:81-89 | a fraction in [0, 1] quantises to a channel of at most 65535, within half a 16-bit step |
| Util.VectorThroughColor | VPVM/Util.cc:81-89 | a vector in the unit cube survives fromColor then toColor within half a 16-bit step per component |
| Preferences.HalfRounded | VPVM/Preference.cc:69-71 | half a difference, rounded as qRound does (twice the result exceeds it by 0 or 1) |
| Preferences.CentredWindowRect | VPVM/Preference.cc:69-71 | 960 by 620, with the margins on opposite sides differing by at most one pixel |
| Preferences.Preference.WindowRect | VPVM/Preference.cc:63-73 | the stored rectangle when the key is present, else the centred default |
| Preferences.Preference.SetWindowRect | VPVM/Preference.cc:75-81 | windowRect() reads back the value; the store is written only when the value differs |
| Preferences.Preference.FontFamily | VPVM/Preference.cc:83-92 | the stored family, else Osaka on Mac OS X, Meiryo on Windows, empty elsewhere |
| Preferences.DefaultFontFamily | VPVM/Preference.cc:83-92 | the family each platform's branch defaults to: Osaka on Mac OS X, Meiryo on Windows, empty elsewhere |
| Preferences.Preference.SetFontFamily | VPVM/Preference.cc:94-100 | fontFamily() reads back the value; written only when it differs |
| Preferences.TrimStart | VPVM/Preference.cc:104 | toInt of stored text skips the white space before the number: the rest is a suffix starting with non-space |
| Preferences.TrimEnd | VPVM/Preference.cc:104 | and the white space after it: the rest is a prefix ending with non-space |
| Preferences.IsSpace | VPVM/Preference.cc:104 | the white space skipped around a number is below U+0100 and is neither a digit nor a sign |
| Preferences.ParseLongLong | VPVM/Preference.cc:104 | the text's number, when there is one, lies within 64 bits |
| Preferences.ToInt32 | VPVM/Preference.cc:104 | the cast to int keeps the low 32 bits: the result is within int range, congruent to the value modulo 2^32, and the value itself when it fits |
| Preferences.ToInt | VPVM/Preference.cc:104 | QVariant::toInt: an int is kept; text gives a value within int range, 0 when it is not a number; a rect or other value gives 0 |
| Preferences.ToRect | VPVM/Preference.cc:66 | QVariant::toRect: a stored rect is kept; anything else gives the null QRect |
| Preferences.ToString | VPVM/Preference.cc:86-90 | QVariant::toString: text is kept; an int gives non-empty text that starts with '-' exactly when it is negative (ParseDecimalText reads it back); anything else gives "" |
| Common.NatText | VPVM/Preference.cc:45 | the digits written for a number are decimal digits, without a leading zero, whose value is the number |
| Preferences.DecimalText | VPVM/Preference.cc:45 | QString::number: a minus sign exactly for a negative number, then decimal digits whose value is the magnitude |
| Preferences.ParseDecimalText | VPVM/Preference.cc:45 | the text QSettings writes for an int parses back to that int |
| Preferences.IniIntRoundTrip | VPVM/Preference.cc:45 | an int written to the INI file and read back as text converts to the same int |
| Preferences.NonNumericTextHasNoNumber | VPVM/Preference.cc:104 | toLongLong finds no number in text with a character that is neither white space, a digit nor a sign |
| Preferences.NonNumericTextIsZero | VPVM/Preference.cc:104 | text with a character that is neither white space, a digit nor a sign converts to 0 |
| Preferences.SamplesOfStoredText | VPVM/Preference.cc:45-105 | a non-negative sample count read back from the INI file as text gives that count |
| Preferences.Preference.Samples | VPVM/Preference.cc:102-105 | never negative; 4 when absent; otherwise the stored value converted to int as QVariant does (stored text is parsed as a decimal number, 0 when it is none), with a negative reading as 0 |
| Preferences.Preference.SetSamples | VPVM/Preference.cc:107-113 | for a 32-bit value, samples() reads back the value clamped at 0; written only when it differs from samples(), which parses a stored text, so the text "8" is not rewritten by setSamples(8) |
| Preferences.Preference.Clear | VPVM/Preference.cc:58-61 | the store is empty, so every getter gives its default |
| ModelFactory.Factory.CreateModelOfType | libvpvl2/src/core/common/Factory.cc:80-92 | null exactly for a type other than asset, PMD and PMX; otherwise a model of that type |
| ModelFactory.Factory.SniffModel | libvpvl2/src/core/common/Factory.cc:94-108 | PMX exactly for a "PMX " prefix, PMD for "Pmd" without it, the asset codec otherwise |
| ModelFactory.Factory.CreateModelFromData | libvpvl2/src/core/common/Factory.cc:94-108 | the sniffed codec's model, with ok equal to its load result |
| ModelFactory.DataModelIsTypedModel | libvpvl2/src/core/common/Factory.cc:80-108 | createModel(data) never gives null: it gives what createModel(type) gives for the model's type |
| ModelFactory.PmxMagicHasPriority | libvpvl2/src/core/common/Factory.cc:97-101 | input starting with "PMX " is PMX whatever follows |
| ModelFactory.ShortInputIsAsset | libvpvl2/src/core/common/Factory.cc:97-106 | input shorter than three bytes is an asset |
| ModelFactory.Factory.SniffMotion | libvpvl2/src/core/common/Factory.cc:115-130 | VMD exactly when the VMD signature matches, MVD when only the MVD one does, none otherwise; each test needs sizeof bytes but compares sizeof - 1 |
| ModelFactory.MatchesSignature | libvpvl2/src/core/common/Factory.cc:117-118 | a match needs at least sizeof(signature) bytes |
| ModelFactory.SignatureIgnoresTail | libvpvl2/src/core/common/Factory.cc:117-118 | only the leading bytes decide: matching data still matches with more bytes after it |
| ModelFactory.Factory.CreateMotion | libvpvl2/src/core/common/Factory.cc:115-130 | no match gives null with ok untouched; a match gives that codec's motion for the model with ok its load result; the context's motion is null on return |
| ModelFactory.VmdFileIsVmd | libvpvl2/src/core/common/Factory.cc:118-120 | a file holding the VMD signature and at least one more byte is read as VMD |
| Scene.AppendToEach | QMA1/SceneLoader.cc:240-247 | the loop of loadModelMotion(path, models): every existing entry stays, and the last target's list holds the motion |
| Scene.AppendToEachDistinct | QMA1/SceneLoader.cc:238-248 | appending a motion to each of distinct models appends it once to each of them and leaves every other list alone |
| Scene.VisitedAreRegistered | QMA1/SceneLoader.cc:240-247 | iterating over every name once visits each registered model once, and visits none exactly when nothing is registered |
| Scene.SceneLoader.FindModel | QMA1/SceneLoader.cc:120-123 | the model registered under the name, null exactly when the name is unknown |
| Scene.SceneLoader.FindModelMotions | QMA1/SceneLoader.cc:125-128 | the model's motion list, empty when it has no entry |
| Scene.SceneLoader.InsertModel | QMA1/SceneLoader.cc:265-268 | the name maps to the model; nothing else changes |
| Scene.SceneLoader.InsertMotion | QMA1/SceneLoader.cc:270-275 | the motion is appended to the model's list, which is created when missing; other models' lists are unchanged |
| Scene.SceneLoader.SetModelMotion | QMA1/SceneLoader.cc:258-263 | smoothing is off and the motion is appended to the model's list |
| Scene.SceneLoader.DeleteModelMotions | QMA1/SceneLoader.cc:89-104 | true exactly when the model is non-null and has an entry, and then the entry is gone; otherwise nothing changes |
| Scene.SceneLoader.DeleteModelMotionAsWritten | QMA1/SceneLoader.cc:106-118 | true exactly when the model has an entry, whether or not the motion is in it; the stored lists are unchanged |
| Scene.SceneLoader.DeleteModelMotion | QMA1/SceneLoader.cc:106-118 | the same result, with the motion's first occurrence removed from the stored list |
| Scene.SceneLoader.DeleteModel | QMA1/SceneLoader.cc:72-87 | true exactly for a registered model; then its name entry and its motion entry are gone, and each model keeps at most one name; false leaves everything unchanged |
| Scene.Numbered | QMA1/SceneLoader.cc:201 | QString("%1%2").arg(key).arg(i) extends the key |
| Scene.NumberedInjective | QMA1/SceneLoader.cc:201 | two numbered names of one key are equal exactly for equal numbers |
| Scene.NumberedTriedStep | QMA1/SceneLoader.cc:200-205 | each round tries a name not tried before |
| Scene.NameLoopAsWritten | QMA1/SceneLoader.cc:200-205 | the loop as written after any number of rounds: the counter has counted every round, and no round leaves the loop |
| Scene.NameLoopAsWrittenGoesOn | QMA1/SceneLoader.cc:200-205 | as written, the key only grows, keeping what it has grown to: a free name once reached is extended, not returned |
| Scene.NameLoopAsWrittenPassesFreeName | QMA1/SceneLoader.cc:198-206 | as written, with "a" taken the loop reaches the free name "a0" and then replaces it by "a01" |
| Scene.SceneLoader.UniqueModelKey | QMA1/SceneLoader.cc:196-206 | as intended: a name no model has; the key itself when it is free, otherwise key + i for the least i whose name is free |
| Scene.SceneLoader.LoadModel | QMA1/SceneLoader.cc:185-221 | a successful load registers a fresh model under a name no model had (its own name when free, else the least free numbered name) with a fresh null motion (smoothing off) as its only motion; a failed one changes nothing |
| Scene.SceneLoader.LoadMotionFile | QMA1/SceneLoader.cc:223-236 | a fresh motion, smoothing on, exactly when the file loads |
| Scene.SceneLoader.LoadModelMotion | QMA1/SceneLoader.cc:250-256 | a loaded motion is appended to the model's list with smoothing off; a failed load changes nothing |
| Scene.SceneLoader.LoadModelMotionForAll | QMA1/SceneLoader.cc:238-248 | a loaded motion is appended once to every registered model's list, and the models are appended to the out-list in hash order; other lists and a failed load change nothing |
| RenderEngine.SelectTextures | libvpvl2/src/engine/cg/PMDRenderEngine.cc:268-302 | the per-material table: a main texture exactly for a positive ID; sphere-add, sphere-modulate or ordinary texture with their spadd and useTexture values; the sub texture is the sphere map only when the main one is not |
| RenderEngine.SelectionFlagsIgnorePreviousMaterial | libvpvl2/src/engine/cg/PMDRenderEngine.cc:268-302 | useTexture and the technique flags do not depend on what the previous material left |
| RenderEngine.CullAfterAsWritten | libvpvl2/src/engine/cg/PMDRenderEngine.cc:303-311 | the toggle as written: culling always comes back on when it was off |
| RenderEngine.CullAsWrittenAlternates | libvpvl2/src/engine/cg/PMDRenderEngine.cc:303-311 | as written, each translucent material flips the cull state |
| RenderEngine.SecondTranslucentMaterialIsCulled | libvpvl2/src/engine/cg/PMDRenderEngine.cc:303-311 | the second of two translucent materials is culled as written and not when corrected |
| RenderEngine.CullAfter | libvpvl2/src/engine/cg/PMDRenderEngine.cc:303-311 | culling is on exactly when neither the model nor the material is translucent |
| RenderEngine.CullStep | libvpvl2/src/engine/cg/PMDRenderEngine.cc:303-311 | corrected: culling is on exactly when neither the model nor the material is translucent; as written: an opaque material turns it on, a translucent one flips it |
| RenderEngine.IndexOffset | libvpvl2/src/engine/cg/PMDRenderEngine.cc:347-367 | the running offset of renderModel, renderEdge and renderZPlot (lines 242-324, 347-367, 391-413): 0 before the first material, and past the last material's indices after it |
| RenderEngine.IndexOffsetStep | libvpvl2/src/engine/cg/PMDRenderEngine.cc:367 | material i's indices end where material i + 1's begin: the offset grows by its index count times indexStride |
| RenderEngine.IndexOffsetGrows | libvpvl2/src/engine/cg/PMDRenderEngine.cc:347-367 | the offset of any first materials is at most the offset past all of them |
| RenderEngine.EdgeDraws | libvpvl2/src/engine/cg/PMDRenderEngine.cc:354-368 | renderEdge issues one draw per material |
| RenderEngine.ZPlotDraws | libvpvl2/src/engine/cg/PMDRenderEngine.cc:398-414 | renderZPlot issues at most one draw per material |
| RenderEngine.ZPlotDrawsEvery | libvpvl2/src/engine/cg/PMDRenderEngine.cc:398-414 | renderZPlot issues a draw for every material exactly when none is excluded |
| RenderEngine.ZPlotDrawsOfPrefix | libvpvl2/src/engine/cg/PMDRenderEngine.cc:398-414 | the draws for the first i materials are the first draws of the whole pass |
| RenderEngine.ZPlotDrawAt | libvpvl2/src/engine/cg/PMDRenderEngine.cc:398-414 | a material that is not excluded is drawn, after the draws of the included materials before it, with its own index count at the offset all the materials before it add up to, excluded ones included |
| RenderEngine.EdgeDrawAt | libvpvl2/src/engine/cg/PMDRenderEngine.cc:337-373 | renderEdge draws material i with its own index count at the offset the materials before it add up to, each contributing its index count times indexStride |
| RenderEngine.ZPlotDrawsAreEdgeDrawsOfIncluded | libvpvl2/src/engine/cg/PMDRenderEngine.cc:381-419 | the z-plot draws are exactly the edge pass's draws of the materials that are not excluded: a skipped material still advances the offset |
| RenderEngine.ModelDrawAt | libvpvl2/src/engine/cg/PMDRenderEngine.cc:255-325 | under either toggle, material i is drawn once, in order, at the edge pass's offset, with its toon colour and its main texture exactly for a positive ID. With the corrected toggle culling is off exactly when the model or the material is translucent; as written, it is the toggle applied to the state the materials before it left |
| RenderEngine.PassStep | libvpvl2/src/engine/cg/PMDRenderEngine.cc:255-324 | one material appends exactly one draw, at the given offset, in the new cull state and with its toon colour, and keeps the earlier draws |
| RenderEngine.ModelPass | libvpvl2/src/engine/cg/PMDRenderEngine.cc:255-325 | the loop appends one draw per material |
| RenderEngine.ModelPassExtend | libvpvl2/src/engine/cg/PMDRenderEngine.cc:255-325 | the pass over one more material is the pass so far followed by that material's step at the running offset, and the offset then grows by its index count times the stride |
| RenderEngine.AsWrittenPassCullsSecondTranslucent | libvpvl2/src/engine/cg/PMDRenderEngine.cc:303-311 | renderModel as written draws the second of two translucent materials of an opaque model with culling on; the corrected pass draws it with culling off |
| RenderEngine.PMDRenderEngine.constructor | libvpvl2/src/engine/cg/PMDRenderEngine.cc:52-71 | no textures, no effect, culling on |
| RenderEngine.PMDRenderEngine.Upload | libvpvl2/src/engine/cg/PMDRenderEngine.cc:104-193 | a failed compile returns false and changes nothing. Otherwise the effect is attached, each material holds its uploaded texture IDs (0 for a failure), toon slot 0 comes from toon0.bmp and slots 1 to 10 from the model's toon textures |
| RenderEngine.PMDRenderEngine.UploadTextures | libvpvl2/src/engine/cg/PMDRenderEngine.cc:155-173 | a fresh array with one entry per material, holding the uploaded main and sub texture IDs, 0 for a failed upload |
| RenderEngine.PMDRenderEngine.FillToonColors | libvpvl2/src/engine/cg/PMDRenderEngine.cc:176-180 | toon slot 0 comes from toon0.bmp and slots 1 to 10 from the model's toon textures in order |
| RenderEngine.PMDRenderEngine.DrawMaterials | libvpvl2/src/engine/cg/PMDRenderEngine.cc:255-325 | the material loop produces exactly the model pass under the given toggle: its draws, its last selection parameters and its cull state |
| RenderEngine.PMDRenderEngine.Renders | libvpvl2/src/engine/cg/PMDRenderEngine.cc:197 | the guard of update, renderModel, renderEdge and renderZPlot (lines 197, 231, 339, 383): false when invisible or without an attached effect, true otherwise |
| RenderEngine.PMDRenderEngine.Update | libvpvl2/src/engine/cg/PMDRenderEngine.cc:195-227 | updates exactly when visible with an effect attached |
| RenderEngine.PMDRenderEngine.RenderModel | libvpvl2/src/engine/cg/PMDRenderEngine.cc:229-335 | nothing happens when invisible or without effect. Otherwise the draws are the model pass with the cull toggle as written, over the uploaded textures, and culling is on at return |
| RenderEngine.PMDRenderEngine.RenderEdge | libvpvl2/src/engine/cg/PMDRenderEngine.cc:337-373 | nothing when invisible or without effect; otherwise the no-geometry parameters and one draw per material at the running offset |
| RenderEngine.PMDRenderEngine.RenderZPlot | libvpvl2/src/engine/cg/PMDRenderEngine.cc:381-419 | nothing when invisible or without effect; otherwise the no-geometry parameters and the draws of the materials not excluded |
| Common.RemoveFirst | VPVM/ProjectProxy.cc:419 | QList::removeOne: the first occurrence goes, the rest keep their order |
| Common.RemoveFirstMultiset | VPVM/ProjectProxy.cc:419 | removeOne drops exactly one copy of a present element |
| ProjectRegistry.EmptyIsConsistent | VPVM/ProjectProxy.cc:238-243 | the empty registry of a new project is consistent |
| ProjectRegistry.StackIn | VPVM/ProjectProxy.cc:942 | m_motion2UndoStacks.value: the motion's stack, null exactly for null or an unregistered motion |
| ProjectRegistry.ChildOf | VPVM/ProjectProxy.cc:415 | ModelProxy::childMotion: the linked child, null exactly when there is none |
| ProjectRegistry.ParentOf | VPVM/ProjectProxy.cc:938 | MotionProxy::parentModel: the proxy of its parent model instance, null exactly when it has none or that model is not registered |
| ProjectRegistry.SelectModel | VPVM/ProjectProxy.cc:626-661 | the model (or none) is current; the lists, the child links and the current motion are unchanged |
| ProjectRegistry.SelectMotion | VPVM/ProjectProxy.cc:668-676 | the motion (or none) is current; for a different motion its undo stack (or none) becomes active, the same motion keeps the active stack; the lists, links and current model are unchanged |
| ProjectRegistry.WithMotion | VPVM/ProjectProxy.cc:910-913 | the proxy is appended to the motion list, its undo stack is recorded, and both motion hashes resolve to it; models, links and the current motion are unchanged |
| ProjectRegistry.Deselected | VPVM/ProjectProxy.cc:935-937 | deleteMotion's first step: the motion is no longer current; when it was, the current motion and active stack become null; nothing else changes |
| ProjectRegistry.Unlinked | VPVM/ProjectProxy.cc:938-941 | with a parent model, the parent loses its child and the motion its parent; nothing else changes |
| ProjectRegistry.StackDropped | VPVM/ProjectProxy.cc:942 | removeStack: the removed stack is no longer active, the active stack is kept or becomes null, nothing else changes |
| ProjectRegistry.Unregistered | VPVM/ProjectProxy.cc:943-946 | the motion leaves the stack hash and both motion hashes and, when listed, the list shrinks by one; nothing else changes |
| ProjectRegistry.WithoutMotion | VPVM/ProjectProxy.cc:931-950 | the motion has no undo stack and is in neither motion hash; a listed motion shortens the list by one; it is not current and its stack is not active; its parent model loses its child link; models and the current model are unchanged |
| ProjectRegistry.WithModel | VPVM/ProjectProxy.cc:390-392 | the proxy is appended to the model list and both model hashes resolve to it; motions, links and the current model are unchanged |
| ProjectRegistry.WithChild | VPVM/ProjectProxy.cc:402 | the model's child motion is the motion, whose parent is the model's instance; lists, stacks and the current model are unchanged |
| ProjectRegistry.AfterAddModel | VPVM/ProjectProxy.cc:387-405 | the model and its new child motion are appended to their lists, linked to each other, the motion has its own undo stack, and the model is current exactly when selected |
| ProjectRegistry.WithoutModel | VPVM/ProjectProxy.cc:419-421 | the model is in neither model hash, a listed model shortens the list by one, no instance is added; motions, links and the current model are unchanged |
| ProjectRegistry.DeletedChild | VPVM/ProjectProxy.cc:415 | the child motion deleteModel deletes: the model's child when its UUID is registered (deleteMotion's guard, line 933), null otherwise |
| ProjectRegistry.AfterDeleteModel | VPVM/ProjectProxy.cc:407-429 | an unregistered model changes nothing. Otherwise its instance is unregistered, it stops being current if it was, and no current motion or active stack appears |
| ProjectRegistry.DeleteModelSteps | VPVM/ProjectProxy.cc:407-421 | the deselection leaves the child motion to delete, its stack and the motion leaving the project as they were, so deselecting and then removing the child and the model is AfterDeleteModel |
| ProjectRegistry.AfterDeleteModels | VPVM/ProjectProxy.cc:1128-1131 | after deleteModel on each model in turn none of them is registered, no instance is added, and no selection appears |
| ProjectRegistry.DeletionsFound | VPVM/ProjectProxy.cc:1128-1131 | one outcome per deleteModel call of the loop |
| ProjectRegistry.DeletionFoundAt | VPVM/ProjectProxy.cc:1128-1131 | the i-th call succeeds exactly when the calls before it left its model registered |
| ProjectRegistry.DeletedChildData | VPVM/ProjectProxy.cc:409-415 | deleteModel takes at most one motion out of the project, and one exactly when the model is registered and has a registered child motion |
| ProjectRegistry.DeletionStep | VPVM/ProjectProxy.cc:1128-1131 | one more call of the loop: the registry, the outcomes and the deleted motions grow by that call's |
| ProjectRegistry.Released | VPVM/ProjectProxy.cc:1122-1139 | both lists are empty, nothing is selected, no model of the list is still registered and no instance is added |
| ProjectRegistry.ModelSelected | VPVM/ProjectProxy.cc:626-661 | making a listed model (or none) current keeps the registry consistent |
| ProjectRegistry.MotionSelected | VPVM/ProjectProxy.cc:668-676 | making a listed motion (or none) current, with its undo stack active, keeps the registry consistent |
| ProjectRegistry.MotionAdded | VPVM/ProjectProxy.cc:891-919 | registering a new motion with its own undo stack keeps the registry consistent |
| ProjectRegistry.MotionRemoved | VPVM/ProjectProxy.cc:931-950 | deleting a registered motion keeps the registry consistent and leaves it neither listed nor in the undo-stack hash |
| ProjectRegistry.WithoutMotionSteps | VPVM/ProjectProxy.cc:931-950 | deleteMotion's state is its four steps in source order: deselect, unlink from the parent, drop the undo stack, unregister |
| ProjectRegistry.ChildLinked | VPVM/ProjectProxy.cc:401-402 | linking a listed model to a registered motion without a parent keeps the registry consistent |
| ProjectRegistry.ModelAdded | VPVM/ProjectProxy.cc:387-405 | addModel with a new model and a new initial motion keeps the registry consistent |
| ProjectRegistry.AddedModelIsLinked | VPVM/ProjectProxy.cc:387-405 | after addModel the model is listed and registered, its child motion is the new motion, whose parent it is, and it is current when selected |
| ProjectRegistry.ModelRemoved | VPVM/ProjectProxy.cc:418-421 | unregistering a listed model that is neither current nor linked keeps the registry consistent and leaves it unlisted |
| ProjectRegistry.ModelAndChildRemoved | VPVM/ProjectProxy.cc:415-421 | deleting the child motion of a listed model that is not current, then the model, keeps the registry consistent |
| ProjectRegistry.ModelDeleted | VPVM/ProjectProxy.cc:407-429 | deleteModel on a registered model keeps the registry consistent |
| ProjectRegistry.ListedChildResolves | VPVM/ProjectProxy.cc:415 | in a consistent registry a listed model's child motion is registered and resolves back to it |
| ProjectRegistry.DeletedModelChildren | VPVM/ProjectProxy.cc:407-429 | after deleteModel the deleted model alone has lost its child link |
| ProjectRegistry.DeletedModelStacks | VPVM/ProjectProxy.cc:407-429 | after deleteModel exactly the child motion's undo-stack entry is gone |
| ProjectRegistry.DeletedModelSelection | VPVM/ProjectProxy.cc:407-429 | the model leaves the list; it stops being current if it was; no current motion appears |
| ProjectRegistry.ModelsDeleted | VPVM/ProjectProxy.cc:1128-1131 | deleting a prefix of the model list in order leaves the rest listed and consistent. It clears a deleted current model, drops every deleted model's child motion and keeps the other child links |
| ProjectRegistry.NextDeletion | VPVM/ProjectProxy.cc:1128-1131 | after deleting a prefix of a consistent registry's model list, the next model is still registered and its deletion removes the child motion it had at the start |
| ProjectRegistry.ListedModelsAreFound | VPVM/ProjectProxy.cc:1128-1131 | deleting a prefix of the model list in order finds every model of it registered |
| ProjectRegistry.ChildMotionsOfDeleted | VPVM/ProjectProxy.cc:1128-1131 | deleting a prefix of the model list in order deletes exactly those models' child motions |
| ProjectRegistry.ChildrenOfAppend | VPVM/ProjectProxy.cc:415 | one more model adds its own child motion, if any, to the deleted children |
| ProjectRegistry.ReleaseDeletesEveryChild | VPVM/ProjectProxy.cc:1125-1131 | release's loop over a consistent registry, after the reset, finds every model and deletes exactly every child motion |
| ProjectRegistry.ResetIsConsistent | VPVM/ProjectProxy.cc:1112-1120 | clearing the selection keeps the registry consistent |
| ProjectRegistry.ChildrenAreListed | VPVM/ProjectProxy.cc:1128-1131 | only listed models have child motions, so the loop over the list reaches every child motion |
| ProjectRegistry.ReleasedIsEmpty | VPVM/ProjectProxy.cc:1122-1139 | after release there are no models, no motion list, no model hashes, no child links and no selection, and no model's child motion is still registered |
| ProjectRegistry.EmptiedIsConsistent | VPVM/ProjectProxy.cc:1132-1133 | clearing the lists of a consistent registry with no model, link or current motion keeps it consistent |
| ProjectRegistry.NewModelIsUnseen | VPVM/ProjectProxy.cc:387-392 | in a consistent registry, a model with a new instance and UUID appears nowhere |
| ProjectRegistry.NewMotionIsUnseen | VPVM/ProjectProxy.cc:891-919 | in a consistent registry, an unregistered motion with its own undo stack appears nowhere |
| ProjectRegistry.UnseenMotionAddThenRemove | VPVM/ProjectProxy.cc:891-950 | deleting a motion that was just registered gives back the registry |
| ProjectRegistry.MotionAddThenRemove | VPVM/ProjectProxy.cc:891-950 | deleteMotion undoes createMotionProxy for a new motion in a consistent registry |
| ProjectRegistry.UnseenChildAddThenRemove | VPVM/ProjectProxy.cc:399-402 | deleting a just-created child motion undoes both its registration and its link |
| ProjectRegistry.UnseenModelAddThenRemove | VPVM/ProjectProxy.cc:390-392 | unregistering a just-registered model gives back the registry |
| ProjectRegistry.UnseenModelAddThenDelete | VPVM/ProjectProxy.cc:387-429 | deleteModel undoes addModel, except that a selected model leaves no model current |
| ProjectRegistry.ModelAddThenDelete | VPVM/ProjectProxy.cc:387-429 | in a consistent registry, deleteModel after addModel gives back the registry; a selected model leaves no model current |
| Project.ParentModelCandidates | VPVM/ProjectProxy.cc:831-839 | the null label comes first |
| Project.OtherModels | VPVM/ProjectProxy.cc:833-839 | at most one entry per model; every entry is a listed model other than the current one |
| Project.BoneCandidates | VPVM/ProjectProxy.cc:840-849 | the null label first; only it without a current model or a parent-binding model, otherwise followed by one entry per bone |
| Project.BoneEntries | VPVM/ProjectProxy.cc:840-849 | one entry per bone, in order |
| Project.OtherModelsMembers | VPVM/ProjectProxy.cc:833-839 | a model is a candidate exactly when it is listed and not current; only models are candidates |
| Project.OtherModelsOfUnlistedCurrent | VPVM/ProjectProxy.cc:833-839 | with no listed current model the candidates are all models in list order |
| Project.OtherModelsSkipCurrent | VPVM/ProjectProxy.cc:833-839 | with the current model at position k of the list the candidates are the models before it and then those after it |
| Project.ResetPose | VPVM/ProjectProxy.cc:761-783 | a reset restores from the origin exactly the coordinates and the orientation its type names, and keeps the rest |
| Project.ResetIsIdempotent | VPVM/ProjectProxy.cc:761-783 | resetting twice with the same type is resetting once |
| Project.ResetAxesCompose | VPVM/ProjectProxy.cc:761-783 | X, then Y, then Z is the whole translation; with the orientation it is everything |
| Project.TruncateTime | VPVM/ProjectProxy.cc:785 | truncation toward zero: the integer within one of the value on the side of zero |
| Project.DifferenceTimeIndex | VPVM/ProjectProxy.cc:731-735 | max(duration - max(value, 0), 0): never negative, 0 without a project, the remaining time inside the duration, 0 past it |
| Project.DurationTimeIndex | VPVM/ProjectProxy.cc:957-960 | the duration clamped at 0, and 0 without a project |
| Project.DifferenceIsBoundedAndAntitone | VPVM/ProjectProxy.cc:731-735 | the time left shrinks as the time index grows and never exceeds the duration |
| Project.SecondsFromTimeIndex | VPVM/ProjectProxy.cc:742-745 | seconds times 30 frames per second give back the time index |
| Project.MillisecondsFromTimeIndex | VPVM/ProjectProxy.cc:747-750 | the inverse of secondsFromTimeIndex, as written |
| Project.DifferenceDuration | VPVM/ProjectProxy.cc:737-740 | never negative, and converting back gives differenceTimeIndex |
| Project.FuzzyCompareFacts | VPVM/ProjectProxy.cc:1057 | qFuzzyCompare holds of equal values, and against 0 only for 0 |
| Project.FuzzyCompare | VPVM/ProjectProxy.cc:1057 | fuzzily equal values are both zero or both non-zero, and have the same sign |
| Project.FuzzyCompareIsSymmetric | VPVM/ProjectProxy.cc:1057 | the comparison does not depend on the order of its arguments |
| Project.ProjectProxy.constructor | VPVM/ProjectProxy.cc:228-282 | an empty, consistent, clean registry at time 0 with an empty title and error, no parent model or bone candidates and no global settings |
| Project.ProjectProxy.FindModel | VPVM/ProjectProxy.cc:369-372 | the proxy under the UUID, null exactly when unknown; in a consistent registry it is listed with that UUID |
| Project.ProjectProxy.FindMotion | VPVM/ProjectProxy.cc:374-377 | the same for motions |
| Project.ProjectProxy.ResolveModelProxy | VPVM/ProjectProxy.cc:921-924 | the proxy of an instance, null for null or an unknown instance; in a consistent registry it is listed and wraps that instance |
| Project.ProjectProxy.ResolveMotionProxy | VPVM/ProjectProxy.cc:926-929 | the same for motions |
| Project.ProjectProxy.SetDirty | VPVM/ProjectProxy.cc:696-702 | the flag takes the value |
| Project.ProjectProxy.SetTitle | VPVM/ProjectProxy.cc:612-619 | the title takes the value; the project's "title" setting is written only for a new title |
| Project.ProjectProxy.SetErrorString | VPVM/ProjectProxy.cc:1104-1110 | the error string takes the value |
| Project.ProjectProxy.SetLanguageAsWritten | VPVM/ProjectProxy.cc:683-689 | as written, the change is signalled for a different language, but the language is not changed |
| Project.ProjectProxy.SetLanguage | VPVM/ProjectProxy.cc:683-689 | the language takes the value, and the change is signalled exactly when it differs |
| Project.ProjectProxy.UpdateParentBindingModel | VPVM/ProjectProxy.cc:831-850 | the model candidates are the null label and every other model in order; the bone candidates are the null label and the bones of the current model's parent-binding model |
| Project.ProjectProxy.SetCurrentModel | VPVM/ProjectProxy.cc:626-661 | a different model becomes current and the candidates are rebuilt for it; the same model changes nothing |
| Project.ProjectProxy.SetCurrentMotion | VPVM/ProjectProxy.cc:668-676 | a different motion becomes current, with its undo stack (or none) active |
| Project.ProjectProxy.CreateMotionProxy | VPVM/ProjectProxy.cc:891-919 | null, with nothing changed, exactly for a null or registered motion. Otherwise a fresh proxy with a fresh undo stack is registered, its stack joins the group, the project records the motion and becomes dirty |
| Project.ProjectProxy.RegisterMotion | VPVM/ProjectProxy.cc:910-913 | the list and the three motion hashes gain the proxy |
| Project.ProjectProxy.DeleteMotion | VPVM/ProjectProxy.cc:931-950 | nothing changes unless the UUID is registered; otherwise the registry loses the motion as WithoutMotion says, its undo stack leaves the group and the project drops the motion |
| Project.ProjectProxy.DeselectMotion | VPVM/ProjectProxy.cc:935-937 | a current motion is replaced by none |
| Project.ProjectProxy.RemoveStack | VPVM/ProjectProxy.cc:942 | the stack leaves the group and stops being active |
| Project.ProjectProxy.UnlinkChild | VPVM/ProjectProxy.cc:938-941 | the parent model and the motion forget each other |
| Project.ProjectProxy.RemoveProjectMotion | VPVM/ProjectProxy.cc:947 | the project no longer holds the motion |
| Project.ProjectProxy.UnregisterMotion | VPVM/ProjectProxy.cc:943-946 | the list and the three motion hashes lose the proxy |
| Project.ProjectProxy.RegisterModel | VPVM/ProjectProxy.cc:390-392 | the proxy is appended to the list and registered by instance and UUID |
| Project.ProjectProxy.LinkChild | VPVM/ProjectProxy.cc:401-402 | the model's child motion is the motion, whose parent model is the model |
| Project.ProjectProxy.RegisterAndSelectModel | VPVM/ProjectProxy.cc:390-396 | the registry becomes WithModel, then SelectModel when selected, and the project is dirty. A newly current model has its candidates rebuilt over the extended list; otherwise both candidate lists are unchanged |
| Project.ProjectProxy.CreateChildMotion | VPVM/ProjectProxy.cc:399-402 | a fresh initial motion under the new UUID, with no file, is registered and becomes the model's child motion |
| Project.ProjectProxy.AddModel | VPVM/ProjectProxy.cc:387-405 | the registry becomes AfterAddModel: the model is registered, current when selected, and linked to a fresh child motion with its own new undo stack; the project records that motion and is dirty. A newly current model has its candidates rebuilt over the extended list; otherwise both candidate lists are unchanged |
| Project.ProjectProxy.DeselectModel | VPVM/ProjectProxy.cc:411-414 | a current model is replaced by none and the candidates are rebuilt for no current model; any other model changes neither the selection nor the candidates |
| Project.ProjectProxy.UnregisterModel | VPVM/ProjectProxy.cc:418-421 | dirty, and the proxy leaves the list and both hashes |
| Project.ProjectProxy.DeleteChildMotion | VPVM/ProjectProxy.cc:415 | a registered child motion is deleted as WithoutMotion says, with its stack and its project entry; without one nothing changes; the candidates are untouched |
| Project.ProjectProxy.RemoveModel | VPVM/ProjectProxy.cc:415-421 | after the deselection of `start`, the child motion is deleted and then the model unregistered, which gives AfterDeleteModel of `start`: dirty, the child's stack and project entry gone, the candidates untouched |
| Project.ProjectProxy.DeleteRegisteredModel | VPVM/ProjectProxy.cc:409-424 | a registered model is deleted: the registry becomes AfterDeleteModel, dirty, only its child's stack and project entry go; the candidates are rebuilt for none over the old list exactly when it was current |
| Project.ProjectProxy.DeleteModel | VPVM/ProjectProxy.cc:407-429 | false exactly for null or an unregistered model, and then only the error string changes. Otherwise the registry becomes AfterDeleteModel, the project is dirty, its child motion's stack leaves the group and the project drops exactly that motion. Deleting the current model rebuilds the candidates for no current model over the old list, so they still list the deleted model; otherwise the candidates are unchanged |
| Project.ProjectProxy.Reset | VPVM/ProjectProxy.cc:1112-1120 | time 0, no current model and no current motion; a model that was current has the candidates rebuilt for none, otherwise they are unchanged |
| Project.ProjectProxy.ResetUndoGroup | VPVM/ProjectProxy.cc:1126 | an empty undo group with no active stack |
| Project.ProjectProxy.ResetForRelease | VPVM/ProjectProxy.cc:1125-1126 | no selection, no active stack, time 0, empty undo group; a model that was current leaves the candidates rebuilt for none over the list, otherwise they are unchanged |
| Project.ProjectProxy.ClearLists | VPVM/ProjectProxy.cc:1132-1133 | both lists are empty |
| Project.ProjectProxy.DeleteModels | VPVM/ProjectProxy.cc:1128-1131 | deleteModel on each proxy of the copy in order: the registry becomes AfterDeleteModels, no undo stack is added, the project is dirty exactly when it was or some call succeeded, the error string is set exactly when some call failed, and the project drops exactly the deleted child motions. With no model current on entry the candidates are unchanged |
| Project.ProjectProxy.DeleteListed | VPVM/ProjectProxy.cc:1128-1133 | deleteModel on each proxy of a copy of the list, then both lists emptied: the registry becomes AfterDeleteModels with empty lists, no stack is added, dirty and the error string follow which deletions found their model, and the project drops exactly the deleted child motions |
| Project.ProjectProxy.ReleaseRegistry | VPVM/ProjectProxy.cc:1122-1133 | reset and a new undo group, then DeleteListed: the registry becomes Released, time 0, an empty undo group, dirty, error string and project motions as the deletions from the reset registry give, the candidates as for reset |
| Project.ProjectProxy.Release | VPVM/ProjectProxy.cc:1122-1139 | the registry becomes Released, which ReleasedIsEmpty shows empty of models, links and selection; time 0 and an empty undo group. On a consistent registry every deleteModel succeeds: dirty when there were models, the error string unchanged, and the project drops exactly the models' child motions. A model that was current leaves the candidates rebuilt for none over the old list |
| Project.ProjectProxy.ResetBone | VPVM/ProjectProxy.cc:752-804 | a bone of a model with a child motion gets the reset pose and one keyframe update at the truncated time, and every other bone of the current model is unchanged; no bone resets every bone of the current model to its origin, records each, and pushes to the active stack; otherwise nothing |
| Project.ProjectProxy.SeekInternal | VPVM/ProjectProxy.cc:1055-1076 | seeks exactly when forced or the time index is not fuzzily equal to the current one, and then takes it |
| Project.ProjectProxy.Seek | VPVM/ProjectProxy.cc:481-484 | an unforced seek; seeking to the current time index does nothing |
| Project.ProjectProxy.Rewind | VPVM/ProjectProxy.cc:486-489 | always seeks, to 0 |

## Left out

- Loading and saving in ProjectProxy (`create`, `load`, `save`, `loadModel`, `loadMotion`, `loadPose`, `createModelProxy`) and the asynchronous loading tasks: file I/O, XMLProject and thread pools. `addModel` takes the proxy such a load created.
- Bullet physics: the rigid bodies rebuilt by `setCurrentModel`, the picking `ray`, the ground body, and the physics switch.
- The keyframes `createInitialModelMotion` fills the initial motion with: the motion is an opaque fresh object here.
- Qt signals and QML list properties. The `currentModelChanged` to `updateParentBindingModel` connection is modelled as a call.
- Undo and redo: undo stacks are opaque identities, and the command `resetBone` pushes is recorded only by its stack.
- The camera and the light objects, `resetMorph`, `resetIKEffectorBones`, `ModelProxy::resetTargets`, `updateOriginValues`, and the scene and bone updates in `seekInternal`.
- ModelProxy.cc and MotionProxy.cc are not part of this model. A model's child motion and a motion's parent model are kept as two maps of the registry. `MotionProxy::updateKeyframe` is recorded as a `KeyframeUpdate` value.
- Scene::defaultFPS is taken to be 30.
- `release` clears the motion list but keeps the motion hashes of motions no model owned. The model states this through `Released` and does not claim those hashes empty.
- Project.ProjectProxy.AddModel: the preservation of `Valid()` is stated by `ProjectRegistry.ModelAdded`, not by the method. The source checks neither UUIDs nor instances for collisions, so the method does not require them fresh.
- Project.ProjectProxy.DeleteModels: the candidate lists are stated only for a call with no model current on entry, which is how release calls it.
- Util.ToQStringFromUnicode: the round trips hold only for text without a leading byte-order mark, because QString::fromUtf16 consumes the mark; the host byte order is taken to be the one U+FEFF denotes.
- Q_ASSERT checks and logging.
- Preferences.IsSpace: only the white space below U+0100 is skipped around stored numbers; QSettings' own escaping in the INI file is not modelled, and the cast of a 64-bit value to int is taken to keep the low 32 bits.
- SceneLoader: the loops that make a name unique (in `loadModel` and `loadAsset`) never end once a name is taken; `LoadModel` uses the corrected search of "## Findings". Assets, camera motions, the renderer and file reading are left out; a load's success is a parameter.
- Factory: the codecs' `load` is a parameter, and the VMD and MVD signature constants, defined by those codecs, are constructor parameters. `createMotion()` with no arguments and the keyframe factories are left out.
- PMDRenderEngine:
  - All GL and Cg calls, buffer uploads, matrices, shadows and the delegate callbacks are left out.
  - A material whose technique is missing is still recorded as drawn.
  - One `DrawCall` or `MaterialDraw` stands for the `glDrawElements` call that renderModel, renderEdge and renderZPlot issue once per pass of the material's technique (PMDRenderEngine.cc:316-321, 359-364, 404-409): the number of passes is not modelled.
  - The fuzzy opacity tests are booleans of the material.
  - kCustomTextureMax is taken to be 11: toon0.bmp then the model's ten toon textures.
- Util::resourcePath: platform-dependent file-system checks.
- Floating point is modelled by reals: colour channels and time indices are exact here.
- Project.MillisecondsFromTimeIndex follows the code, which multiplies by the frame rate; the name suggests milliseconds.

## Findings

| source | as written | input that shows it | evidently intended | confidence | as-written member | corrected member |
|---|---|---|---|---|---|---|
| libvpvl2/src/engine/cg/PMDRenderEngine.cc:303-311 | culling is switched off for a translucent material only while it is on, and switched on whenever it is off, so consecutive translucent materials alternate | an opaque model with two translucent materials in a row: the second is drawn with culling on | culling off exactly while a translucent material or model is drawn | not executed | RenderEngine.PMDRenderEngine.RenderModel (with RenderEngine.AsWrittenPassCullsSecondTranslucent and RenderEngine.SecondTranslucentMaterialIsCulled) | RenderEngine.CullAfter (with RenderEngine.ModelDrawAt) |
| QMA1/SceneLoader.cc:198-206 | the loop that numbers a taken name has no exit: a free name is taken but the loop goes on, and the same loop is in loadAsset (lines 139-147) | a model whose name is already registered: loadModel never returns | stop at the first free name key + i | not executed | Scene.NameLoopAsWritten (with Scene.NameLoopAsWrittenGoesOn and Scene.NameLoopAsWrittenPassesFreeName) | Scene.SceneLoader.UniqueModelKey |
| QMA1/SceneLoader.cc:106-118 | the motion is removed from a local copy of the list, which is never stored back | a model whose list holds the motion: after the call the stored list still holds it | the edited list stored back | not executed | Scene.SceneLoader.DeleteModelMotionAsWritten | Scene.SceneLoader.DeleteModelMotion |
| VPVM/ProjectProxy.cc:683-689 | the parameter is assigned the member (`value = m_language`) instead of the reverse | any language other than the current one: the change is signalled, but the language stays | the member takes the new value | not executed | Project.ProjectProxy.SetLanguageAsWritten | Project.ProjectProxy.SetLanguage |
