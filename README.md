# Orthanc archive client and viewer session, in Dafny

This project models the part of a DICOM viewer that talks to an Orthanc
imaging archive. It covers two pieces:

- **The archive client** (`OrthancService` in `orthanc_service.dfy`). It has
  the record types the archive returns (patient, study, series, instance).
  It has the four list-then-fetch reads: list identifiers, then fetch each
  record, joined as `Promise.all` joins. It has the aggregation of patients
  and their studies into per-patient display groups, the three locator URLs
  (raw DICOM file, rendered preview, WADO-URI) and the `/system`
  availability probe.
- **The viewer session** (`UseOrthanc` in `use_orthanc.dfy`). This is the
  `useOrthanc` hook's four state cells: `groupedStudies`, `isLoading`,
  `error` and `isOrthancAvailable`. It has the transitions
  `checkOrthancStatus`, `loadStudies` and `refreshStudies`. The state is a
  class `OrthancSession` whose methods update the fields. Each method is
  specified by a function on a `SessionState` snapshot, and the lemmas about
  whole runs are stated on those functions.

Every archive request is abstracted. An `Archive` value gives, for each
endpoint (`/patients`, `/patients/{id}`, `/patients/{id}/studies`,
`/studies/{id}`, `/studies/{id}/series`, `/series/{id}`,
`/series/{id}/instances`, `/instances/{id}`, `/system`), the outcome of
requesting it: a record or a failure. The service's reads are then
functions of the archive. The session's methods take the archive as a
parameter, and the awaited aggregation becomes `GetGroupedStudies(archive)`.
A ghost counter `aggregationPasses` records how many aggregation passes the
session asked for.

`QueryString` (`query_string.dfy`) reads URLs back: the text after the
first `?`, splitting at `&`, and joining pieces. The URL lemmas use it.
`Outcomes` (`outcomes.dfy`) holds `Result` and `Option`.

Behaviour of the code worth knowing, which the model keeps as written:

- A failed load keeps the previous groups (`src/hooks/useOrthanc.ts:28-30`).
  `FailedLoadKeepsLastSnapshot` proves that the model keeps them, as the
  code does.
- A refresh during a load is not coalesced into the load already running:
  every call starts a new aggregation pass (`src/hooks/useOrthanc.ts:36-38`).
  Each `RefreshStudies` call adds one pass to `aggregationPasses`.
- A study's `ParentPatient` is never consulted: every study listed under a
  patient is formatted into that patient's group
  (`src/services/orthancService.ts:117-129`).
- Every request failure is handled alike; not-found and transport failures
  are not told apart, so the model has one `Failure`.

## Model

| member | source | states |
|---|---|---|
| `OrthancService.MapAll` | src/services/orthancService.ts:86-91 | The joined fan-out succeeds iff every request succeeds. On success it has one result per input, and result k is the answer for input k. |
| `OrthancService.ListThenFetch` | src/services/orthancService.ts:83-93 | Succeeds iff the listing and every fetch succeed. On success element k is the record fetched for listed id k, so length and order are kept. |
| `OrthancService.GetPatients` | src/services/orthancService.ts:82-94 | `/patients` then `/patients/{id}` for each id: succeeds iff all of these succeed. The patients come in listing order, one per id. |
| `OrthancService.GetStudiesForPatient` | src/services/orthancService.ts:97-109 | The same list-then-fetch shape for `/patients/{id}/studies` and `/studies/{id}`. |
| `OrthancService.GetSeriesForStudy` | src/services/orthancService.ts:143-155 | The same shape for `/studies/{id}/series` and `/series/{id}`. |
| `OrthancService.GetInstancesForSeries` | src/services/orthancService.ts:158-170 | The same shape for `/series/{id}/instances` and `/instances/{id}`. |
| `OrthancService.FormatStudy` | src/services/orthancService.ts:119-129 | Summary fields: `studyId` is the archive ID and `orthancId` is that same id. `imageUrl` is `"orthanc:"` followed by the id. Modality is the placeholder `"DICOM"`, media type `dicom`, source `orthanc`. Date and accession number are copied from the tags. The description is the tag when it is non-empty and `"No description"` otherwise, so it is never empty. |
| `OrthancService.FormatStudies` | src/services/orthancService.ts:119 | One summary per study, in the same order. |
| `OrthancService.GroupPatient` | src/services/orthancService.ts:116-135 | A patient's group succeeds iff its studies, listed under the patient's archive `ID`, can be read. The group's id and name come from the DICOM tags `PatientID` and `PatientName`. |
| `OrthancService.GetGroupedStudies` | src/services/orthancService.ts:112-140 | The aggregation succeeds iff the patients can be read and every patient's studies can be read. |
| `OrthancService.GroupedStudiesPerPatient` | src/services/orthancService.ts:113-137 | On success: exactly one group per listed patient id, in listing order. Group k is named from patient k's tags and holds patient k's formatted studies. |
| `OrthancService.GroupStudiesInArchiveOrder` | src/services/orthancService.ts:117-129 | On success: group k has as many studies as the archive lists for patient k. Summary j formats fetched study j, and its `studyId` is that study's ID. |
| `OrthancService.GroupedStudiesAllOrNothing` | src/services/orthancService.ts:115-117 | If any one patient's studies cannot be read, the whole aggregation fails. No partial tree is returned. |
| `OrthancService.GetDicomFileUrl` | src/services/orthancService.ts:173-175 | The file URL reads back as exactly its instance id under `http://localhost:8042/instances/…/file`. |
| `OrthancService.GetPreviewUrl` | src/services/orthancService.ts:178-180 | The preview URL reads back as exactly its instance id under `http://localhost:8042/instances/…/preview`. |
| `OrthancService.DicomFileUrlExactly` | src/services/orthancService.ts:173-175 | A URL reads back as file URL of `id` iff it is `GetDicomFileUrl(id)`. So the file URL is injective in the id. |
| `OrthancService.PreviewUrlExactly` | src/services/orthancService.ts:178-180 | The same two-way statement for preview URLs. |
| `OrthancService.FileAndPreviewShareResource` | src/services/orthancService.ts:173-180 | For one id, the file and preview URLs share the prefix `http://localhost:8042/instances/<id>`, which embeds the id literally. They differ only in the final `/file` versus `/preview`. |
| `OrthancService.FileAndPreviewNeverCollide` | src/services/orthancService.ts:173-180 | No file URL equals any preview URL, whatever the two ids. |
| `OrthancService.GetWadoUrl` | src/services/orthancService.ts:183-185 | The body is the source's template string. The function has no `ensures` of its own: `WadoUrlJoined` gives its exact value for every input, and `WadoQueryParameters` gives its query for UIDs without `&`. |
| `OrthancService.WadoUrlJoined` | src/services/orthancService.ts:183-185 | The WADO URL is `http://localhost:8042/wado`, then `?`, then five parameters joined by `&`. |
| `OrthancService.WadoQueryParameters` | src/services/orthancService.ts:183-185 | For UIDs without `&`: the query splits into exactly `requestType=WADO`, `studyUID=<s>`, `seriesUID=<r>`, `objectUID=<i>`, `contentType=application/dicom`, in that order, with the UIDs verbatim. |
| `OrthancService.WadoUidNotEncoded` | src/services/orthancService.ts:183-185 | UIDs are not encoded. An `&` inside the study UID splits the query into six parameters. |
| `OrthancService.CheckOrthancAvailability` | src/services/orthancService.ts:188-196 | True iff `GET /system` succeeds. Any failure gives false and never an error. |
| `UseOrthanc.AfterProbe` | src/hooks/useOrthanc.ts:14-17 | The probe sets availability to the `/system` outcome and leaves the other three cells alone. |
| `UseOrthanc.InFlight` | src/hooks/useOrthanc.ts:22-23 | While an aggregation is in flight: loading, no error, groups and availability unchanged. |
| `UseOrthanc.LoadFinished` | src/hooks/useOrthanc.ts:25-33 | Success replaces the groups. Failure sets `"Failed to load studies from Orthanc"` and keeps the groups. Loading ends either way. |
| `UseOrthanc.AfterLoad` | src/hooks/useOrthanc.ts:19-34 | A whole `loadStudies` call. If unavailable, nothing changes. Otherwise loading ends, and either the groups are the aggregation result with no error, or the groups are untouched with the fixed error message. |
| `UseOrthanc.LoadIdempotent` | src/hooks/useOrthanc.ts:19-34 | Loading twice from an unchanged archive leaves the same state as loading once. |
| `UseOrthanc.FailedLoadKeepsLastSnapshot` | src/hooks/useOrthanc.ts:25-30 | A success followed by a failure shows the successful groups, with the error message and not loading. |
| `UseOrthanc.RunKeepsSettled` | src/hooks/useOrthanc.ts:19-34 | After any sequence of completed probes and loads, a settled session is still settled: not loading, and the error is absent or the fixed message. |
| `UseOrthanc.GroupsComeFromLoads` | src/hooks/useOrthanc.ts:25-27 | After any run, the groups shown are the ones held before it or the result of one of its successful loads. |
| `UseOrthanc.RunFromInitial` | src/hooks/useOrthanc.ts:5-8 | From the initial state, every completed run is settled and shows no groups or the result of one of its successful loads. |
| `UseOrthanc.OrthancSession.constructor` | src/hooks/useOrthanc.ts:5-8 | Initial state: no groups, not loading, no error, not available, no aggregation passes. |
| `UseOrthanc.OrthancSession.CheckOrthancStatus` | src/hooks/useOrthanc.ts:14-17 | The new state is `AfterProbe` of the old one. Only `isOrthancAvailable` may change. |
| `UseOrthanc.OrthancSession.BeginLoad` | src/hooks/useOrthanc.ts:19-23 | Starts iff the archive is available, and if so enters the in-flight state and counts one aggregation pass. Otherwise nothing changes. |
| `UseOrthanc.OrthancSession.FinishLoad` | src/hooks/useOrthanc.ts:25-33 | The new state is `LoadFinished` of the old state and the awaited outcome. |
| `UseOrthanc.OrthancSession.LoadStudies` | src/hooks/useOrthanc.ts:19-34 | The new state is `AfterLoad` of the old one. An aggregation pass is requested iff the archive was available. |
| `UseOrthanc.OrthancSession.RefreshStudies` | src/hooks/useOrthanc.ts:36-38 | Exactly the effect of `LoadStudies`, including one new aggregation pass per call. No coalescing. |

## Left out

- `uploadDicomFile` (src/services/orthancService.ts:199-210): multipart form upload through the HTTP library, which is I/O only.
- The HTTP client setup and basic-auth credentials (src/services/orthancService.ts:4-15): transport configuration. The base URL is the constant `OrthancUrl`.
- Concurrency of `Promise.all` and async suspension: the fan-out is a sequential map over the ids. `BeginLoad` and `FinishLoad` split `loadStudies` at its await. Overlapping loads can be written as interleaved calls, but the model proves nothing about them.
- OrthancService.MapAll: when several requests fail, `Promise.all` reports whichever rejection comes first in time. The model only says that the join fails, and `Failure` carries no detail.
- The archive is one fixed state per call. A change in the archive between two requests of one aggregation pass is not modelled.
- React lifecycle: the mount-time `useEffect` probe, stale closure reads of `isOrthancAvailable`, and rendering. `console.error` logging is left out too.
- OrthancService.FormatStudy: JavaScript's `||` also replaces a missing (`undefined`) description. The record types declare the tag as a string, so the model treats only the empty string as missing.
- `src/components/ViewerToolbar.tsx`: presentation only. It is not part of this model.
