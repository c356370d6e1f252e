# zooniverse-lsst, modelled in Dafny

The library turns Lasair broker objects for LSST transients into Zooniverse (Panoptes) subjects.
`LSSTSubjectGenerator` is an iterator over object ids. For each id it fetches the object from Lasair. It then yields one subject per image-URL group of that object (a group holds the Science, Template and Difference FITS cutouts of one detection, plus its `diaSourceId`).

A subject has one location per configured media generator, and each location is a payload plus its MIME type. The media generators are:
- the three single-cutout PNG renderers;
- a three-panel triplet renderer;
- a JSON light-curve renderer.

Each image renderer picks its image with the FITS HDU selection rule `fits_data`; the JSON renderer reads no image. The package also has three helpers: a bounded `network_retry` wrapper, a `Subject.add_location` override that keeps the locations and media files in lockstep, and the `_is_list_like` predicate.

The two copies of `generator.py` (`src/zooniverse_lsst/` and `src/lsst_zooniverse/`) hold the same logic; the first only adds logging. They are modelled once, and the table cites both.

Files:

- `wrappers.dfy`: `Option` and `Result`.
- `lists.dfy`: `_is_list_like` over a datatype of Python value kinds.
- `photometry.dfy`: detection records, and the `defaultdict(list)` grouping of `diaSourcesList` by `diaSourceId`. The grouping is a loop, proved equal to a declarative table.
- `lightcurve.dfy`: `JSONLocation.generate`. It covers band grouping in first-seen order, label broadcast, cyclic glyphs and `zip` truncation. The JSON document is modelled as a structured value. The loops are proved equal to the reference `Document`.
- `locations.dfy`: `fits_data`, the renderers, the panel order of the triplet renderer, and the MIME types.
- `subject_generator.dfy`: `generate`, and the `LSSTSubjectGenerator` class (`__init__`, `_parse_obj`, `__next__`, and draining the iterator). Its output order is proved against a declarative sequence of pending draws.
- `client.dfy`: `network_retry`, and `Subject.add_location` with a file object class.

Behaviour of the code worth knowing:
- The light-curve renderer does not drop NaN-flux or masked rows; every record is emitted.
- `np.squeeze` removes every size-1 axis, not only trailing ones. An HDU is considered only if its data has at least two dimensions before squeezing.
- After one re-fetch finds an object with no image groups, the iteration ends even when more ids remain. The next call fetches the next id again.
- An empty list of media generators is accepted and gives empty subjects.

## Model

| member | source | states |
|---|---|---|
| Lists.IsListLike | src/lsst_zooniverse/lists.py:95-109 | lists, tuples and dicts are list-like; str, bytes, type objects, objects without `__iter__` and zero-dimensional arrays are not; sets are list-like exactly when `allow_sets` |
| Lists.DocstringExamples | src/lsst_zooniverse/lists.py:71-86 | the docstring's examples: a list and a set are list-like, a datetime, a string and an int are not, a 1-dimensional array is and a 0-dimensional one is not, and a set is not when sets are disallowed |
| Photometry.LookupInsert | src/zooniverse_lsst/generator.py:283 | a `defaultdict` lookup (`Lookup`: the stored list, or the empty list for a missing id) gains the key and changes no lookup |
| Photometry.BuildPhotometry | src/zooniverse_lsst/generator.py:268-270 | the grouping loop yields, for every id, the records with that `diaSourceId` in list order, and exactly the ids present as keys |
| Photometry.GroupedSnoc | src/lsst_zooniverse/generator.py:234-236 | appending one record to the grouped table extends exactly that record's id |
| Photometry.MatchingEmpty | src/lsst_zooniverse/generator.py:243 | a group's photometry is empty exactly when no record has its id |
| Photometry.MatchingMembers | src/zooniverse_lsst/generator.py:268-270 | the photometry of an id holds exactly those records of the list that carry the id |
| Photometry.MatchingConcat | src/zooniverse_lsst/generator.py:269-270 | grouping distributes over concatenation of record lists, so the original order is kept |
| LightCurve.SeriesData | src/zooniverse_lsst/generator.py:192-195 | `seriesData` pairs `midpointMjdTai` with `psfFlux` pointwise, truncated to the shorter column |
| LightCurve.LabelsFor | src/zooniverse_lsst/generator.py:184-185 | a scalar label (not list-like) is repeated once per band; a label list (list-like) is used as it is |
| LightCurve.Cycle | src/zooniverse_lsst/generator.py:189 | the glyph index of series i is below the glyph count, and equals i for the first round |
| LightCurve.CycleStep | src/lsst_zooniverse/generator.py:172 | `cycle` advances by one and wraps to 0 after the last glyph |
| LightCurve.NextStyle | src/lsst_zooniverse/generator.py:172 | the running glyph cursor always equals the cyclic index of the next series |
| LightCurve.CurveSnoc | src/zooniverse_lsst/generator.py:177-180 | appending a record extends only its band's three columns |
| LightCurve.BandsSnoc | src/zooniverse_lsst/generator.py:175-182 | a record adds its band to the band order only on the band's first appearance |
| LightCurve.CollectStep | src/zooniverse_lsst/generator.py:177-180 | one pass of the collection loop, inserting an empty entry for a new band and then appending, keeps the bands in first-seen order and every band's columns equal to those of the records seen |
| LightCurve.GroupByBand | src/lsst_zooniverse/generator.py:158-165 | the collection loop gives the bands in first-seen order and, for each, its time, flux and flux-error columns in record order |
| LightCurve.ZipSeries | src/lsst_zooniverse/generator.py:170-185 | the zip of curves, labels and cycled glyphs has the length of the shortest input (zero without glyphs); series k has curve k's points, label k and the k-th glyph drawn from `cycle(glyphs)` |
| LightCurve.GenerateLightCurve | src/zooniverse_lsst/generator.py:172-204 | the built document equals the reference document for the photometry, labels and glyphs |
| LightCurve.EmptyCurve | src/lsst_zooniverse/generator.py:158-163 | a band with no records has empty columns |
| LightCurve.BandsHaveRecords | src/zooniverse_lsst/generator.py:177-182 | a band is emitted exactly when some record has it |
| LightCurve.BandsDistinct | src/lsst_zooniverse/generator.py:165 | each band appears once among the series |
| LightCurve.BandsFirstSeen | src/zooniverse_lsst/generator.py:182 | the series order is the order of first appearance: any record of a later band comes after a record of each earlier band |
| LightCurve.CountRecordsSnoc | src/zooniverse_lsst/generator.py:177-180 | a record adds one point to the series count of its band |
| LightCurve.DistinctOccursOnce | src/lsst_zooniverse/generator.py:165 | a band of the distinct band order occurs there once |
| LightCurve.EveryRecordEmittedOnce | src/zooniverse_lsst/generator.py:177-195 | with the columns summed over all emitted bands, every record contributes exactly one point |
| LightCurve.SeriesCount | src/zooniverse_lsst/generator.py:184-189 | a scalar label gives one series per distinct band, each labelled with it; a label list gives min(#bands, #labels) series |
| LightCurve.StylesCycle | src/lsst_zooniverse/generator.py:172 | series i and i + #glyphs share colour and glyph |
| LightCurve.SameButFluxErrBands | src/zooniverse_lsst/generator.py:177-182 | records differing only in flux error give the same bands and per-band records up to flux error |
| LightCurve.FluxErrNotEmitted | src/zooniverse_lsst/generator.py:180-202 | `psfFluxErr` is collected but the document does not depend on it |
| Locations.Squeeze | src/lsst_zooniverse/generator.py:55 | `np.squeeze` leaves no size-1 axis, does not add axes, and keeps every other axis |
| Locations.SqueezedImage | src/zooniverse_lsst/generator.py:58-64 | an HDU is usable exactly when it has data with at least two axes that squeezes to exactly two |
| Locations.FirstImage | src/lsst_zooniverse/generator.py:49-57 | the search returns the first usable HDU, or nothing exactly when none is usable |
| Locations.FitsData | src/zooniverse_lsst/generator.py:56-73 | a missing key fails with KeyError before any HDU is examined; otherwise the first usable HDU is returned squeezed to 2-D, or ValueError naming the key when none is usable |
| Locations.Panels | src/lsst_zooniverse/generator.py:118-119 | the panels load in key order; all succeed or the first failing key's error is raised |
| Locations.AsFile | src/lsst_zooniverse/generator.py:37-44 | every success carries its generator's MIME type (`MimeType`: `image/png` for the image renderers, `application/json` for the JSON one); single-cutout renderers give a PNG of their own key's image; the triplet gives a PNG of Science, Template, Difference in that order and fails at the first failing key; the JSON renderer gives the light-curve document as `application/json` |
| Locations.MissingTemplate | src/zooniverse_lsst/generator.py:120-124 | a group without a Template cutout fails the template and triplet renderers but not the science renderer |
| SubjectGenerator.RenderAll | src/lsst_zooniverse/generator.py:218 | one location per generator in order, or the first generator's error |
| SubjectGenerator.Generate | src/zooniverse_lsst/generator.py:246-250 | a subject has exactly one location per configured generator, in generator order, each with that generator's MIME type; the first failing generator aborts it |
| SubjectGenerator.Outcome | src/zooniverse_lsst/generator.py:283-300 | drawing a group never ends the iteration; a group without `diaSourceId` raises KeyError; otherwise the subject is emitted exactly when `generate` succeeds, with one location per generator carrying its MIME type, and a failure raises `generate`'s error |
| SubjectGenerator.FirstEmpty | src/zooniverse_lsst/generator.py:286-287 | the first object without image groups: all earlier objects have groups |
| SubjectGenerator.UntilEmptyIsPrefixFlatten | src/zooniverse_lsst/generator.py:284-293 | the iteration yields exactly the groups of the objects before the first object without groups, in object and then group order |
| SubjectGenerator.FlattenLength | src/lsst_zooniverse/generator.py:238-253 | one subject per image group across all objects |
| SubjectGenerator.NoEmptyObjectYieldsAll | src/zooniverse_lsst/generator.py:278-300 | when every object has a group, every group of every object is yielded, one subject each |
| SubjectGenerator.LSSTSubjectGenerator.constructor | src/zooniverse_lsst/generator.py:216-231 | nothing is fetched yet; the id cursor holds all ids |
| SubjectGenerator.LSSTSubjectGenerator.ParseObj | src/zooniverse_lsst/generator.py:263-270 | one fetch: the current object, a fresh group cursor over its groups, and its photometry grouped by `diaSourceId` |
| SubjectGenerator.LSSTSubjectGenerator.DrawGroup | src/lsst_zooniverse/generator.py:242-243 | consumes one group, looks up its photometry (inserting a missing id), and generates; a group without `diaSourceId` raises after being consumed |
| SubjectGenerator.LSSTSubjectGenerator.Next | src/zooniverse_lsst/generator.py:278-300 | draws the next pending group; on inner exhaustion fetches exactly one object; an empty object, or no ids left, ends the iteration, with nothing changed when no ids are left |
| SubjectGenerator.LSSTSubjectGenerator.Drain | src/lsst_zooniverse/generator.py:226-253 | iterating the generator yields the outcomes of the pending draws in order, until the end or the first raised error |
| SubjectGenerator.LoadableGroupEmits | src/lsst_zooniverse/generator.py:193-197 | with the default generators a loadable group gives three PNG locations |
| SubjectGenerator.TwoObjectsThreeSubjects | src/zooniverse_lsst/generator.py:278-300 | two objects with two and one groups give three subjects of three PNG locations each |
| Client.NetworkRetry | src/lsst_zooniverse/client.py:32-41 | at most 10 calls; the first return propagates with no further calls; only ProxyError, ConnectionError and PanoptesAPIException (with their subclasses) are retried, so any other exception, including JSONDecodeError, propagates at once; after 10 retried failures the last one is raised |
| Client.MediaTypeFor | src/lsst_zooniverse/client.py:105-117 | a non-empty given media type is kept; otherwise magic's answer, or `image/` plus imghdr's answer, with UnknownMediaException when imghdr finds nothing |
| Client.Subject.AddLocation | src/lsst_zooniverse/client.py:93-122 | a dict is appended with no bytes and no file is touched; a path or file is read, typed and appended with its bytes; both lists grow by one and `locations` is marked modified; any failure leaves both lists unchanged; a file object is closed on every path |
| Client.MediaFile.Read | src/lsst_zooniverse/client.py:104 | reading returns the rest of the file, or fails on a closed file |
| Client.MediaFile.Close | src/lsst_zooniverse/client.py:121-122 | the file ends closed |

## Left out

- FITS parsing and pixel values: an HDU is its data's shape (or no data, or non-array data). `fits.open` is the abstract `Media.openFits`, so an unreadable URL is not modelled.
- Percentile display scaling (`np.isfinite`, `np.nanpercentile`) is left out: it is floating-point numerics.
- matplotlib figures, `savefig` PNG encoding and `pyplot.close` are left out: they are an external library. The drawing is the abstract `Media.renderPng` over the selected images in panel order. The `is_list_like(axes)` fallback in the triplet renderer is left out because it only concerns matplotlib's return shape.
- The Lasair network fetch is a total function from id to the object's image groups and detection records. Building a `lasair_client` from a token is left out.
- Upload to Panoptes, and the upstream `Subject` used by `generate` (with `manual_mimetype`), are left out: they are a foreign library. A subject is its ordered list of (payload, MIME type) locations.
- The `time.sleep(5)` between retries is left out: it has no observable effect here.
- `magic.from_buffer` and `imghdr.what` are abstract functions. The choice between them at import time is the `Detector` parameter. The `pkg_resources` warning is left out: it only logs.
- The pandas `is_list_like` import override is left out: it is a foreign library, and only `_is_list_like` is modelled.
- `json.dumps` text and the `StringIO`/`BytesIO` buffers are left out: the JSON document is a structured value.
- Logging calls are left out.
- The commented-out connection code and the unused `MAX_ATTEMPTS` in `client.py` are left out.
- The id sequence is finite. An infinite id iterator is not modelled.
- The plain `Location` and `ImageLocation` base classes are left out as media generators: they are never configured as one, and both fail when used. `Location.as_file` raises `NotImplementedError`. `ImageLocation.as_file` fails in `fits_data` with AttributeError, because the base class has no `IMAGE_KEY`.
- Records carry only `diaSourceId`, `band`, `midpointMjdTai`, `psfFlux` and `psfFluxErr`, and every record has all five. A record missing one of them, which raises KeyError in the source, is not modelled. The `diaSourceId` of an image group is optional; a missing one is the `MissingDiaSourceId` error.
- Lists.IsListLike: `allow_sets is False` is an identity test in the source and is modelled as the boolean. A falsy non-bool `allow_sets` is not distinguished.
- Client.MediaFile.Read: a read yields the whole rest of the file. Partial reads and file positions are not modelled.
- Client.Subject.AddLocation: `_OLD_STR_TYPES` (legacy string types) are treated as paths like `str`. An `open` failure other than a missing path is not modelled.
