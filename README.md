# InhomCorr core, modelled in Dafny

InhomCorr is a Python toolkit for correcting intensity inhomogeneity (bias fields) in MR images.
This project models its core and proves properties of the model:

- **MR data containers** (`mr_data.dfy`). `MRData`, `ImageData` and `QMRIData` are classes whose
  property setters each write one field. The `numpy` and `shape` views are functions of the stored
  tensor.
- **Arrays** (`tensors.dfy`, `nii_volumes.dfy`). An n-d array is a shape plus a row-major
  sequence of elements. NIfTI volumes are indexed `vol[x, y, z, c]`. A channel slice
  `vol[:, :, :, c]` and the axis reversal `moveaxis((0, 1, 2), (2, 1, 0))` are defined on the
  flat element sequence and proved correct element by element.
- **NIfTI loaders** (`data_loader_nii.dfy`, `create_qmri.dfy`).
  - `QMRIDataLoaderNii` keeps a list of `QMRIData`. It loads T1 from channel 2 and rho from
    channel 0, both with reversed spatial axes.
  - It models Python list indexing in `get_data`, including negative indices.
  - The free functions of `create_qmri.py` take the channels without reversing the axes.
  - Reading files is not modelled: the decoded volume, its header, the directory test and the
    file list are inputs.
- **Three N4 bias-field estimators** (`n4_shapes.dfy`, `n4_itk.dfy`,
  `n4_biasfield_estimator.dfy`, `biasfield_estimators.dfy`). The shared parts are:
  - `np.squeeze`;
  - the iteration schedule `[maxIter] * levels`;
  - the `while ndim < 4: unsqueeze(0)` padding loop;
  - the N4 fit itself, as an opaque shape-preserving function.

  All three squeeze the data and then assert that it is 2-D or 3-D. They differ in their
  `None` handling, padding and aliasing. Each copy is modelled as written, with two
  exceptions listed under "Left out": the SimpleITK fit on the 0-d placeholder, and the
  aliasing of the `n4_itk.py` hyperparameter record.
- **UNet** (`unet.dfy`). Each torch module is modelled as a transformer of feature shapes
  `(batch, channels, spatial)`. The proofs cover:
  - the channel lists of the encoder and decoder;
  - the layer layout of each conv block;
  - the wiring of the skip connections;
  - the main result: on inputs the encoder accepts, the network's output has `nChOut` channels
    and the input's spatial shape.
- **UNet estimator** (`unet_estimator.dfy`). It covers the estimator's hyperparameter record,
  the way it builds the network, and its input guards. It returns a constant result.
- **Data manipulation** (`data_manip.dfy`, `dummyclass.dfy`). `normalise_image` is proved to map
  onto `[0, 1]`, to be monotone, and to hit both ends. `DummyClass` is also modelled.

Integers are unbounded `int`/`nat`. Real-valued voxels are `real`. Errors that Python raises
(`AssertionError`, `IndexError`, `NotImplementedError`, `AttributeError`, torch's shape errors)
are `Failure` values of `Errors.Error`.

Where the specification and the code disagree, the model follows the code:

- `QMRIData` setters store any tensor. They do not track a broadcast shape, they raise no
  shape error, and unset fields are `None` rather than defaults.
- The NIfTI loaders accept only 4-D volumes.
- The in-place N4 estimator hands back the squeezed shape. The two other N4 estimators pad with
  leading unit axes, so they return the input's shape only when its unit axes all lead
  (`N4Itk.N4FieldShape`).
- The UNet estimator returns the constant 1.0 rather than a field.

## Model

| member | source | states |
|---|---|---|
| MRDataInterface.MRData.constructor | src/inhomcorr/interfaces/mr_data_interface.py:9-11 | a fresh `MRData` has an empty header and no mask |
| MRDataInterface.MRData.SetHeader | src/inhomcorr/interfaces/mr_data_interface.py:23-36 | the header setter stores the given dict and touches no other field |
| MRDataInterface.MRData.SetMask | src/inhomcorr/interfaces/mr_data_interface.py:48-61 | the mask setter stores the given tensor and touches no other field |
| MRDataInterface.ImageData.constructor | src/inhomcorr/interfaces/mr_data_interface.py:67-69 | a new image has an empty header, no mask and no data, so `shape` and `numpy` are `None` |
| MRDataInterface.ImageData.SetHeader | src/inhomcorr/interfaces/mr_data_interface.py:23-36 | the inherited header setter stores the given dict and touches no other field |
| MRDataInterface.ImageData.SetMask | src/inhomcorr/interfaces/mr_data_interface.py:48-61 | the inherited mask setter stores the given tensor and touches no other field |
| MRDataInterface.ImageData.SetData | src/inhomcorr/interfaces/mr_data_interface.py:81-94 | the data setter stores the tensor, and afterwards `shape` and `numpy` report it |
| MRDataInterface.ImageData.Numpy | src/inhomcorr/interfaces/mr_data_interface.py:96-110 | `numpy` is `None` exactly when there is no data, otherwise the same elements in the same shape |
| MRDataInterface.ImageData.Shape | src/inhomcorr/interfaces/mr_data_interface.py:112-122 | `shape` is `None` exactly when there is no data, otherwise the tensor's shape, with the rank as its length |
| MRDataInterface.QMRIData.constructor | src/inhomcorr/interfaces/mr_data_interface.py:128-131 | a new object has an empty header and no mask, T1 or rho |
| MRDataInterface.QMRIData.SetHeader | src/inhomcorr/interfaces/mr_data_interface.py:23-36 | the inherited header setter stores the given dict and touches no other field |
| MRDataInterface.QMRIData.SetMask | src/inhomcorr/interfaces/mr_data_interface.py:48-61 | the inherited mask setter stores the given tensor and touches no other field |
| MRDataInterface.QMRIData.SetT1 | src/inhomcorr/interfaces/mr_data_interface.py:147-156 | the T1 setter stores any tensor, unchecked, and touches no other field |
| MRDataInterface.QMRIData.SetRho | src/inhomcorr/interfaces/mr_data_interface.py:168-176 | the rho setter stores any tensor, unchecked, and touches no other field |
| MRDataInterface.SettersAreIndependent | src/inhomcorr/interfaces/mr_data_interface.py:23-176 | after writing every property once, each property holds what was written to it |
| NiiVolumes.Channel | src/inhomcorr/data_loader/data_loader_nii.py:63 | `vol[:, :, :, c]` has the volume's three spatial extents as its shape |
| NiiVolumes.ChannelAt | src/inhomcorr/data_loader/data_loader_nii.py:63-69 | element `[x, y, z]` of the channel slice is `vol[x, y, z, c]`, for every in-range voxel |
| NiiVolumes.MoveAxes | src/inhomcorr/data_loader/data_loader_nii.py:66-75 | `moveaxis((0, 1, 2), (2, 1, 0))` turns shape `[n0, n1, n2]` into `[n2, n1, n0]` |
| NiiVolumes.MoveAxesAt | src/inhomcorr/data_loader/data_loader_nii.py:66-75 | element `[z, y, x]` of the result is element `[x, y, z]` of the input |
| NiiVolumes.MoveAxesInvolution | src/inhomcorr/data_loader/data_loader_nii.py:66-75 | reversing the axes twice gives back the original array |
| NiiVolumes.FlatIndex | src/inhomcorr/data_loader/data_loader_nii.py:63 | every flat position of a 3-D array is the row-major position of an in-range `[x, y, z]` whose element it is, and no other in-range coordinate has that position (by `Offset3Unique`) |
| NiiVolumes.Offset3Unique | src/inhomcorr/data_loader/data_loader_nii.py:63 | distinct in-range voxels have distinct row-major positions |
| DataLoaderNii.QMRIDataLoaderNii.constructor | src/inhomcorr/data_loader/data_loader_nii.py:15-16 | a new loader holds an empty list |
| DataLoaderNii.LoadError | src/inhomcorr/data_loader/data_loader_nii.py:52-63 | a file loads iff its volume is 4-D with a channel 2. Otherwise the rank test raises `NotImplementedError` first, and a 4-D volume with fewer than 3 channels raises `IndexError` on `[..., 2]` |
| DataLoaderNii.T1Map | src/inhomcorr/data_loader/data_loader_nii.py:63-66 | the stored T1 map has shape `[n2, n1, n0]` |
| DataLoaderNii.RhoMap | src/inhomcorr/data_loader/data_loader_nii.py:69-75 | the stored rho map has shape `[n2, n1, n0]` |
| DataLoaderNii.MapsAt | src/inhomcorr/data_loader/data_loader_nii.py:63-75 | `t1[z, y, x] == vol[x, y, z, 2]` and `rho[z, y, x] == vol[x, y, z, 0]` for every voxel |
| DataLoaderNii.LoadablePrefix | src/inhomcorr/data_loader/data_loader_nii.py:33-35 | the count of leading files that load: all files before it load, and the file at that position does not |
| DataLoaderNii.QMRIDataLoaderNii.AddQmridataFromFolder | src/inhomcorr/data_loader/data_loader_nii.py:18-35 | a non-directory fails with the list unchanged. Otherwise one object per file is appended in order, up to the first file that raises; earlier entries are kept, and the error is that file's |
| DataLoaderNii.QMRIDataLoaderNii.LoadDataFromSingleFile | src/inhomcorr/data_loader/data_loader_nii.py:37-80 | fails iff the rank is not 4 (`NotImplementedError`) or there are fewer than 3 channels (`IndexError`), in that order; otherwise a fresh object with the file's header, no mask, and the T1 and rho maps |
| DataLoaderNii.QMRIDataLoaderNii.GetData | src/inhomcorr/data_loader/data_loader_nii.py:82-95 | succeeds iff `-len <= index < len`. `index >= len` fails the assertion, and `index < -len` is an `IndexError`. A negative index counts from the end |
| DataLoaderNii.PyIndex | src/inhomcorr/data_loader/data_loader_nii.py:95 | Python's list subscript: every index from `-len` to `len - 1` names a position inside the list, a non-negative index being that position itself |
| DataLoaderNii.QMRIDataLoaderNii.GetAllData | src/inhomcorr/data_loader/data_loader_nii.py:97-104 | the whole list, in order: entry `i` is what `get_data(i)` returns |
| DataLoaderNii.LoadFolder | src/inhomcorr/data_loader/data_loader_nii.py:15-35 | a fresh loader given a directory of loadable files holds one object per file, and `get_data(i)` (lines 82-95) is the object loaded from file `i` |
| CreateQmri.GetQparFromNiiFile | src/inhomcorr/data_loading/create_qmri.py:31-53 | succeeds iff the volume is 4-D, returning it unchanged; otherwise `NotImplementedError` with the rank |
| CreateQmri.ChannelOf | src/inhomcorr/data_loading/create_qmri.py:56-81 | channel `c` succeeds iff the volume is 4-D and `c` is below the channel count, with both errors in order. It has the spatial shape, and element `[x, y, z]` is `vol[x, y, z, c]` |
| CreateQmri.GetT1FromNiiFile | src/inhomcorr/data_loading/create_qmri.py:56-67 | succeeds iff the volume is 4-D with at least 3 channels, with the rank error first and then the `IndexError` for channel 2. The result has the spatial shape, and element `[x, y, z]` is `vol[x, y, z, 2]` |
| CreateQmri.GetM0FromNiiFile | src/inhomcorr/data_loading/create_qmri.py:70-81 | succeeds iff the volume is 4-D with at least one channel, with the rank error first. The result has the spatial shape, and element `[x, y, z]` is `vol[x, y, z, 0]` |
| CreateQmri.CreateQmriFromNiiFile | src/inhomcorr/data_loading/create_qmri.py:84-113 | succeeds iff there are 4 axes and at least 3 channels, failing with the T1 read's error. T1 is channel 2 and rho is channel 0, neither reordered; the header stays empty |
| CreateQmri.LoaderReversesAxes | src/inhomcorr/data_loading/create_qmri.py:56-81 | on a volume the NIfTI loader accepts, both readers succeed, and the loader's t1 and rho maps are exactly the channel reads here with the spatial axes reversed: axis order is the one difference |
| N4Shapes.Squeeze | src/inhomcorr/methods/n4_itk.py:80 | the squeezed shape is never longer than the input's. `SqueezeSpec` states which axes go |
| N4Shapes.SqueezeSpec | src/inhomcorr/methods/n4_itk.py:80 | squeezing removes every unit axis, keeps the element count, and changes the shape iff there was a unit axis |
| N4Shapes.SqueezeIdempotent | src/inhomcorr/methods/n4_itk.py:80 | squeezing twice is squeezing once |
| N4Shapes.SqueezeDropsLeadingOnes | src/inhomcorr/methods/n4_itk.py:80 | leading unit axes do not change the squeezed shape |
| N4Shapes.PadShape | src/inhomcorr/methods/n4_itk.py:114-115 | the padded shape has rank `max(4, rank)`, ends with the original extents, and has only unit axes in front of them |
| N4Shapes.PadToRank4 | src/inhomcorr/methods/n4_itk.py:114-115 | the unsqueeze loop keeps the elements, gives rank `max(4, rank)` with the original extents trailing, and keeps the squeezed shape |
| N4Shapes.SqueezePadRoundTrip | src/inhomcorr/methods/n4_itk.py:80-115 | for a rank-4 shape, squeeze (line 80) then pad (lines 114-115) gives the shape back iff all its unit axes lead |
| N4Shapes.Schedule | src/inhomcorr/methods/n4_itk.py:103-106 | `[maxIter] * levels` has `levels` entries, or none when `levels <= 0`, each equal to `maxIter` |
| N4Itk.ScheduleOf | src/inhomcorr/methods/n4_itk.py:103-106 | the estimator's schedule has one entry per fitting level, each the iteration count (defaults 50 and 4, lines 24-25) |
| N4Itk.FormatInputData | src/inhomcorr/methods/n4_itk.py:63-84 | no data is a `RuntimeError`. A squeezed rank outside 2..3 is an assertion failure carrying that rank. Otherwise the same elements in the squeezed shape |
| N4Itk.N4Estimator.constructor | src/inhomcorr/methods/n4_itk.py:37-47 | `None` means the defaults `(50, 4)`; otherwise the given record |
| N4Itk.N4Estimator.SitkN4Estimation | src/inhomcorr/methods/n4_itk.py:86-120 | fails exactly as formatting does. Otherwise a fresh image holds the fitted field, padded to rank 4 |
| N4Itk.N4FieldShape | src/inhomcorr/methods/n4_itk.py:80-118 | for a rank-4 input the field has rank 4 and the same squeezed shape. It equals the input's shape iff the input's unit axes all lead |
| N4BiasfieldEstimator.N4Hyperparameters.constructor | src/inhomcorr/methods/n4_biasfield_estimator.py:21-24 | defaults are 50 iterations and 4 levels |
| N4BiasfieldEstimator.N4Hyperparameters.SetMaxNumberIterations | src/inhomcorr/methods/n4_biasfield_estimator.py:36-45 | the setter writes only the iteration count |
| N4BiasfieldEstimator.N4Hyperparameters.SetNumFittingLevels | src/inhomcorr/methods/n4_biasfield_estimator.py:57-66 | the `numFittingLevels` setter writes `_numberFittingLevels` only |
| N4BiasfieldEstimator.N4Estimator.constructor | src/inhomcorr/methods/n4_biasfield_estimator.py:78-88 | keeps the caller's object (aliased), or builds a default one for `None` |
| N4BiasfieldEstimator.FormatInputData | src/inhomcorr/methods/n4_biasfield_estimator.py:104-125 | no data gives the 0-d placeholder. A squeezed rank outside 2..3 is an assertion failure carrying that rank. Otherwise the squeezed array |
| N4BiasfieldEstimator.N4Estimator.SitkN4Estimation | src/inhomcorr/methods/n4_biasfield_estimator.py:127-159 | fails exactly as formatting does. Otherwise a fresh image holds the field fitted with the object's current settings, padded to rank 4 |
| BiasfieldEstimators.N4Hyperparameters.constructor | src/inhomcorr/methods/biasfield_estimators.py:21-24 | defaults are 50 iterations and 4 levels |
| BiasfieldEstimators.N4Hyperparameters.SetMaxNumberIterations | src/inhomcorr/methods/biasfield_estimators.py:36-45 | the setter writes only the iteration count |
| BiasfieldEstimators.N4Hyperparameters.SetNumFittingLevels | src/inhomcorr/methods/biasfield_estimators.py:57-66 | the `numFittingLevels` setter writes `_numberFittingLevels` only |
| BiasfieldEstimators.N4Estimator.constructor | src/inhomcorr/methods/biasfield_estimators.py:78-88 | keeps the caller's object, or builds a default one for `None` |
| BiasfieldEstimators.N4Estimator.SitkN4Estimation | src/inhomcorr/methods/biasfield_estimators.py:104-140 | no data gives a fresh empty image and leaves the input alone. A bad squeezed rank fails, also leaving the input alone. Otherwise the field, in the squeezed shape, replaces the input's data and the input itself is returned |
| BiasfieldEstimators.InPlaceFieldLosesUnitAxes | src/inhomcorr/methods/biasfield_estimators.py:120-138 | an image with a unit axis never gets a field of its own shape back |
| Unet.ConvOpFor | src/inhomcorr/methods/unet.py:44-49 | an operator is bound iff `dim` is 1, 2 or 3, and its spatial rank is `dim` |
| Unet.ApplyLayer | src/inhomcorr/methods/unet.py:54-59 | a conv accepts exactly its rank and input channel count, and yields its output channel count; `'same'` keeps the spatial shape, and an activation keeps everything |
| Unet.PointwiseConvKeepsSpatial | src/inhomcorr/methods/unet.py:244-246 | the 1x1 conv with padding 0 keeps every non-zero extent |
| Unet.KeepingLayers | src/inhomcorr/methods/unet.py:61-66 | a run of `out -> out` `'same'` convs and activations leaves the shape unchanged |
| Unet.ConvBlockLayout | src/inhomcorr/methods/unet.py:53-70 | `2 * n_convs` layers, at least one pair, alternating conv and activation. The first conv maps `in -> out` and the rest `out -> out`; the residual conv `in -> out` exists iff requested |
| Unet.NewConvBlock | src/inhomcorr/methods/unet.py:30-70 | the constructor's loop builds that layout, or fails when no operator is bound |
| Unet.ConvBlockShape | src/inhomcorr/methods/unet.py:72-87 | a block accepts exactly its rank and `n_ch_in` channels, and yields `n_ch_out` channels on the same spatial shape; the residual sum always fits |
| Unet.ApplyLayersSpec | src/inhomcorr/methods/unet.py:66 | `nn.Sequential` applies the layers in order: no layers leave the input as it is, the first layer that rejects its input ends the pass with that layer's error, and a pass that gets through keeps the batch size and spatial rank |
| Unet.ConvBlockForwardSpec | src/inhomcorr/methods/unet.py:72-87 | a block's pass succeeds iff its layers accept the input and, with a residual conv, that conv yields the layers' output shape. The output is the layers' output, with the input's batch size and spatial rank |
| Unet.Halve | src/inhomcorr/methods/unet.py:119-126 | one pooling keeps the spatial rank |
| Unet.HalveFloor | src/inhomcorr/methods/unet.py:119-126 | one pooling takes each extent `n` to the floor of `n / 2` |
| Unet.Halvings | src/inhomcorr/methods/unet.py:119-126 | repeated pooling keeps the spatial rank |
| Unet.Pool | src/inhomcorr/methods/unet.py:119-126 | pooling by 2 accepts exactly its rank with every extent at least 2, and halves each extent, rounding down |
| Unet.EncoderChannels | src/inhomcorr/methods/unet.py:106-108 | `[n_ch_in, nF, 2 nF, ..., nF 2^(nEnc-1)]` |
| Unet.NewEncoder | src/inhomcorr/methods/unet.py:93-126 | `nEnc` blocks, block `i` mapping list entry `i` to `i + 1`, with `bias` always at its default. Fails when no operator is bound |
| Unet.EncoderBlock | src/inhomcorr/methods/unet.py:141-142 | block `i` of the built encoder, on what stage `i` works on, fails only at stage 0 (wrong rank or channel count), and yields feature `i`: `nF 2^i` channels on the input's extents halved `i` times |
| Unet.EncoderForward | src/inhomcorr/methods/unet.py:128-145 | succeeds iff there are no stages, or the input has the rank, `n_ch_in` channels and room for `nEnc` poolings. Then exactly `nEnc` features; feature `i` has `nF 2^i` channels and the input's extents halved `i` times |
| Unet.DecoderChannels | src/inhomcorr/methods/unet.py:164-166 | `n_dec_stages` entries; entry `i` is `n_ch_in` halved `i` times, rounded down |
| Unet.NewDecoder | src/inhomcorr/methods/unet.py:151-195 | `n_dec_stages - 1` upconvs and blocks, block `i` and upconv `i` mapping entry `i` to `i + 1`. Fails when no operator is bound |
| Unet.Interpolate | src/inhomcorr/methods/unet.py:203-204 | interpolation sets the spatial shape to the skip's and keeps batch and channels |
| Unet.Concat | src/inhomcorr/methods/unet.py:206 | concatenation needs equal batch and spatial shapes, and adds the channel counts |
| Unet.DecoderUpconv | src/inhomcorr/methods/unet.py:205 | upconv `i` of the built decoder accepts exactly its rank and channel entry `i`, and yields entry `i + 1` on the same spatial shape |
| Unet.DecoderBlock | src/inhomcorr/methods/unet.py:207 | block `i` of the built decoder accepts exactly its rank and channel entry `i`, and yields entry `i + 1` on the same spatial shape |
| Unet.DecoderForward | src/inhomcorr/methods/unet.py:197-208 | succeeds iff every stage fits its skip feature. The output has the last stage's channels on the last skip's spatial shape, or is the input when there is no stage |
| Unet.NewUNet | src/inhomcorr/methods/unet.py:214-246 | builds encoder, decoder and 1x1 conv as wired, failing iff `dim` is not 1, 2 or 3 |
| Unet.DecoderChannelAt | src/inhomcorr/methods/unet.py:226-229 | with the UNet wiring, decoder stage `i` works at `nF 2^(nEnc-1-i)` channels |
| Unet.SkipsFit | src/inhomcorr/methods/unet.py:226-235 | the reversed skips line up: every concatenation has the next block's input channels, and the decoder ends at `nF` channels on the input's spatial shape |
| Unet.UNetForward | src/inhomcorr/methods/unet.py:248-263 | the network accepts exactly what its encoder accepts with at least one stage, and outputs `nChOut` channels on the input's spatial shape. With no stage, `enc_features[-1]` fails |
| UnetEstimator.HparamsOrDefault | src/inhomcorr/methods/unet_estimator.py:39-41 | `None` is replaced by the defaults |
| UnetEstimator.FirstMissing | src/inhomcorr/methods/unet.py:217-246 | the first attribute read that a record lacks: none iff every read attribute is present, otherwise a lacking one that is read |
| UnetEstimator.UNetFromRecord | src/inhomcorr/methods/unet.py:213-246 | `UNet(record)` for a record with a given set of attributes. The first of the nine encoder arguments the record lacks raises `AttributeError`. With all nine present, a `dim` outside 1-3 leaves `conv_op` unbound before `nChOut` is read. Then a missing `nChOut` raises, and otherwise the network is built |
| UnetEstimator.UNetFromEstimatorRecord | src/inhomcorr/methods/unet_estimator.py:43 | as written, building `UNet` from the estimator's record fails with `AttributeError` on `ActivationFun`, whatever the settings |
| UnetEstimator.EstimatorMissesActivation | src/inhomcorr/methods/unet_estimator.py:14-25 | `ActivationFun` is the first encoder argument (the sixth read, src/inhomcorr/methods/unet.py:221) that the estimator's record lacks |
| UnetEstimator.UNetRecordComplete | src/inhomcorr/methods/unet.py:11-24 | a record with `UNet`'s own attributes and a valid `dim` builds the network |
| UnetEstimator.ToUNetHyperParameters | src/inhomcorr/methods/unet_estimator.py:14-25 | the corrected translation keeps every setting, renames `ResConnection`, and uses `UNet`'s default activation |
| UnetEstimator.DefaultsAgree | src/inhomcorr/methods/unet_estimator.py:17-25 | the estimator's defaults translate to `UNet`'s defaults |
| UnetEstimator.UNetEstimator.Create | src/inhomcorr/methods/unet_estimator.py:31-43 | the corrected construction: defaults for `None`, success iff `dim` is valid, the network `UNet` builds |
| UnetEstimator.UNetEstimator.UnetEstimation | src/inhomcorr/methods/unet_estimator.py:45-80 | no data gives a fresh empty image. A rank outside 2..3 fails the assertion with that rank. Otherwise the constant 1.0 |
| UnetEstimator.ApplyDefaultUNet | tests/test_methods_unet.py:11-22 | the default network maps `(1, 2, 36, 36)` to `(1, 2, 36, 36)` |
| DataManip.Min | src/inhomcorr/data_manip.py:42 | `np.min` is an element that is below or equal to every element |
| DataManip.Max | src/inhomcorr/data_manip.py:42 | `np.max` is an element that is above or equal to every element |
| DataManip.NormaliseImage | src/inhomcorr/data_manip.py:24-42 | an empty array fails and a constant array has zero range. Otherwise the same shape, with each element `(v - min) / (max - min)` |
| DataManip.NormalisedInUnit | src/inhomcorr/data_manip.py:24-42 | every normalised element lies in `[0, 1]` |
| DataManip.NormalisedMonotone | src/inhomcorr/data_manip.py:24-42 | normalising keeps the order of every pair of elements, both ways |
| DataManip.NormalisedExtremes | src/inhomcorr/data_manip.py:24-42 | the normalised array has minimum 0 and maximum 1 |
| DataManip.DummyClass.constructor | src/inhomcorr/data_manip.py:11-21 | stores the data, with `id` 0 |
| Dummyclass.DummyClass.constructor | src/inhomcorr/dummyclass.py:11-21 | stores the data, with `id` 0 |
| Dummyclass.DummyClass.IncreaseId | src/inhomcorr/dummyclass.py:22-26 | `id` goes up by one, and nothing else changes |
| Dummyclass.CountTo | src/inhomcorr/dummyclass.py:11-26 | `n` increments from a fresh object leave `id == n` and the data untouched |

## Left out

- File and folder I/O (`nib.load`, `Path.is_dir`, `glob`) is not modelled: the decoded volume, its header as a dict, the directory test and the file list, in glob order, are inputs.
- `get_hdr_from_nii_file` and the header that `create_qmri.py` leaves commented out are not modelled.
- `create_qmri_from_nii_file` reads the file twice; the model reads the one decoded volume twice.
- float32 rounding and the float `(1/2)**ne` product are not modelled: voxels are reals, and channel halving is integer division.
- DataManip.NormaliseImage: numpy yields a NaN array for a constant image rather than raising. The model reports `ZeroRange` instead of NaN elements. The non-ndarray assertion is made impossible by the types.
- src/data_manip.py is a second copy of `normalise_image`. It is covered by the same function, because the body is the same.
- The SimpleITK fit (Otsu mask, N4 iterations, log bias field, `exp`) is a parameter that keeps the shape. Its values are not modelled.
- N4BiasfieldEstimator.N4Estimator.SitkN4Estimation: for an image without data, the 0-d placeholder goes on into SimpleITK, whose behaviour is not modelled. The model returns `PlaceholderNotModelled`.
- Torch numerics (convolution values, interpolation modes, max pooling values, activation functions) are not modelled. Layers are modelled as shape transformers.
- Unet.ConvBlockForward: the residual sum is modelled as needing equal shapes. Torch broadcasting of unequal shapes is not modelled.
- Unet.ApplyLayer: torch's own argument checks are not modelled (unbatched inputs, kernel larger than a `'same'` input, zero channel counts).
- Unet.Pool: the torch error for a wrong input rank is `ShapeMismatch` here, without torch's exact message.
- Negative counts (`nEncStages`, `nFilters`, `n_convs`) are not modelled: they are `nat`.
- N4Itk.N4Estimator.constructor: the `N4Hyperparameters` dataclass of `n4_itk.py` is modelled as a value. Python keeps the caller's object (`self.hparams = hparams`, src/inhomcorr/methods/n4_itk.py:47), so a later write to that object changes the estimator's schedule; the model's estimator keeps the record it was given.
- Unet.ConvBlockForward and Unet.ApplyLayers carry no contract of their own: `ConvBlockForwardSpec` and `ApplyLayersSpec` state it, so that the encoder and decoder proofs need not carry it.
- `UNetEstimator.__call__` only delegates to `unet_estimation`, so it has no member of its own.
- `get_all_data` returns the loader's own list object, so a caller's changes to it are not modelled.
- Assertions vanish under `python -O`; that is not modelled, and assertions always fire.
- The abstract interfaces (`BiasEstimator`, `HyperParameters`, `QMRIDataLoader`) are not modelled: they hold no logic.
- The signal models, the torchio bias creator, `dcm2nii`, the trainers and the datasets are not part of this model.

## Findings

| source | as written | input that shows it | evidently intended | confidence | as-written member | corrected member |
|---|---|---|---|---|---|---|
| src/inhomcorr/methods/unet_estimator.py:43 | `UNet(hparams)` is handed the estimator's own record. That record has no `ActivationFun` and calls the residual flag `ResConnection`, not `ConvBlockResConnection`, so `UNet.__init__` (src/inhomcorr/methods/unet.py:217-225) raises `AttributeError` on `ActivationFun`. `tests/test_methods_unet.py:12-13` builds the network the same way. | `UNetEstimator(None)`, or `UNet(unet_estimator.UNetHyperParameters())` | the estimator's settings under `UNet`'s names, with `LeakyReLU` as the activation, giving a network that maps `(1, 2, 36, 36)` to `(1, 2, 36, 36)` | not executed | UnetEstimator.UNetFromEstimatorRecord | UnetEstimator.UNetEstimator.Create |
