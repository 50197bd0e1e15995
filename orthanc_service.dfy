/** The Orthanc archive client: its record types, the list-then-fetch reads
    of the patient/study/series/instance hierarchy, the aggregation of
    patients and their studies into display groups, the locator URLs and the
    availability probe.

    Every archive request is abstracted: an `Archive` value gives, for each
    endpoint, the outcome of requesting it, so that each read is a function
    of the archive's state. */
module OrthancService {
  import opened Outcomes
  import QueryString

  // ---------------------------------------------------------------------
  // Records returned by the archive
  // ---------------------------------------------------------------------

  datatype PatientTags = PatientTags(
    patientName: string,
    patientId: string,
    patientBirthDate: Option<string>,
    patientSex: Option<string>)

  /** `id` is the archive's own row identifier; the DICOM patient id is a tag. */
  datatype OrthancPatient = OrthancPatient(id: string, mainDicomTags: PatientTags)

  datatype StudyTags = StudyTags(
    studyDate: string,
    studyDescription: string,
    patientName: string,
    patientId: string,
    accessionNumber: string,
    studyInstanceUid: string,
    numberOfStudyRelatedSeries: string)

  datatype OrthancStudy = OrthancStudy(id: string, parentPatient: string, mainDicomTags: StudyTags)

  datatype SeriesTags = SeriesTags(
    seriesDescription: string,
    modality: string,
    seriesNumber: string,
    seriesInstanceUid: string,
    numberOfSeriesRelatedInstances: string)

  datatype OrthancSeries = OrthancSeries(id: string, parentStudy: string, mainDicomTags: SeriesTags)

  datatype InstanceTags = InstanceTags(sopInstanceUid: string, instanceNumber: string)

  datatype OrthancInstance = OrthancInstance(
    id: string,
    fileSize: int,
    fileUuid: string,
    indexInSeries: int,
    mainDicomTags: InstanceTags)

  // ---------------------------------------------------------------------
  // The display view
  // ---------------------------------------------------------------------

  datatype MediaType = Dicom | Video | Model3D {
    /** The literal the viewer sees. */
    function Tag(): string {
      match this
      case Dicom => "dicom"
      case Video => "video"
      case Model3D => "3d"
    }
  }

  datatype Source = Orthanc | Local {
    function Tag(): string {
      match this
      case Orthanc => "orthanc"
      case Local => "local"
    }
  }

  datatype StudySummary = StudySummary(
    studyId: string,
    studyDate: string,
    modality: string,
    description: string,
    accessionNumber: string,
    imageUrl: string,
    mediaType: MediaType,
    source: Source,
    orthancId: Option<string>)

  datatype GroupedPatientStudy = GroupedPatientStudy(
    patientId: string,
    patientName: string,
    studies: seq<StudySummary>)

  // ---------------------------------------------------------------------
  // The archive as seen by the client
  // ---------------------------------------------------------------------

  /** The outcome of each GET request against one state of the archive. */
  datatype Archive = Archive(
    patientIds: Result<seq<string>>,                      // GET /patients
    patient: string -> Result<OrthancPatient>,            // GET /patients/{id}
    studyIdsOfPatient: string -> Result<seq<string>>,     // GET /patients/{id}/studies
    study: string -> Result<OrthancStudy>,                // GET /studies/{id}
    seriesIdsOfStudy: string -> Result<seq<string>>,      // GET /studies/{id}/series
    series: string -> Result<OrthancSeries>,              // GET /series/{id}
    instanceIdsOfSeries: string -> Result<seq<string>>,   // GET /series/{id}/instances
    instance: string -> Result<OrthancInstance>,          // GET /instances/{id}
    system: Result<()>)                                   // GET /system

  // ---------------------------------------------------------------------
  // Fan-out
  // ---------------------------------------------------------------------

  /** `rs` holds, position by position, the records fetched for `ids`. */
  ghost predicate FetchedInOrder<T>(ids: seq<string>, fetch: string -> Result<T>, rs: seq<T>) {
    |rs| == |ids| && forall k :: 0 <= k < |ids| ==> fetch(ids[k]) == Success(rs[k])
  }

  /** Applying a request to every element and joining on all of them: the
      join fails as soon as one request fails, and otherwise lists the
      results in the order of the inputs. */
  function MapAll<S, T>(xs: seq<S>, f: S -> Result<T>): (r: Result<seq<T>>)
    ensures r.Success? <==> forall k :: 0 <= k < |xs| ==> f(xs[k]).Success?
    ensures r.Success? ==>
      |r.value| == |xs| && forall k :: 0 <= k < |xs| ==> f(xs[k]) == Success(r.value[k])
  {
    if xs == [] then Success([])
    else
      match f(xs[0])
      case Failure => Failure
      case Success(y) =>
        match MapAll(xs[1..], f)
        case Failure => Failure
        case Success(ys) => Success([y] + ys)
  }

  /** List identifiers, then fetch the record of each of them. */
  function ListThenFetch<T>(listing: Result<seq<string>>, fetch: string -> Result<T>): (r: Result<seq<T>>)
    ensures r.Success? <==>
      listing.Success? && forall k :: 0 <= k < |listing.value| ==> fetch(listing.value[k]).Success?
    ensures r.Success? ==> FetchedInOrder(listing.value, fetch, r.value)
  {
    match listing
    case Failure => Failure
    case Success(ids) => MapAll(ids, fetch)
  }

  function GetPatients(a: Archive): (r: Result<seq<OrthancPatient>>)
    ensures r.Success? <==>
      a.patientIds.Success? && forall k :: 0 <= k < |a.patientIds.value| ==> a.patient(a.patientIds.value[k]).Success?
    ensures r.Success? ==> FetchedInOrder(a.patientIds.value, a.patient, r.value)
  {
    ListThenFetch(a.patientIds, a.patient)
  }

  function GetStudiesForPatient(a: Archive, patientId: string): (r: Result<seq<OrthancStudy>>)
    ensures var listing := a.studyIdsOfPatient(patientId);
      r.Success? <==>
        listing.Success? && forall k :: 0 <= k < |listing.value| ==> a.study(listing.value[k]).Success?
    ensures r.Success? ==> FetchedInOrder(a.studyIdsOfPatient(patientId).value, a.study, r.value)
  {
    ListThenFetch(a.studyIdsOfPatient(patientId), a.study)
  }

  function GetSeriesForStudy(a: Archive, studyId: string): (r: Result<seq<OrthancSeries>>)
    ensures var listing := a.seriesIdsOfStudy(studyId);
      r.Success? <==>
        listing.Success? && forall k :: 0 <= k < |listing.value| ==> a.series(listing.value[k]).Success?
    ensures r.Success? ==> FetchedInOrder(a.seriesIdsOfStudy(studyId).value, a.series, r.value)
  {
    ListThenFetch(a.seriesIdsOfStudy(studyId), a.series)
  }

  function GetInstancesForSeries(a: Archive, seriesId: string): (r: Result<seq<OrthancInstance>>)
    ensures var listing := a.instanceIdsOfSeries(seriesId);
      r.Success? <==>
        listing.Success? && forall k :: 0 <= k < |listing.value| ==> a.instance(listing.value[k]).Success?
    ensures r.Success? ==> FetchedInOrder(a.instanceIdsOfSeries(seriesId).value, a.instance, r.value)
  {
    ListThenFetch(a.instanceIdsOfSeries(seriesId), a.instance)
  }

  // ---------------------------------------------------------------------
  // Aggregation
  // ---------------------------------------------------------------------

  /** Placeholder modality until the study's series are fetched. */
  const PlaceholderModality: string := "DICOM"
  const DefaultDescription: string := "No description"
  const ImageUrlScheme: string := "orthanc:"

  /** The display summary of one archive study. */
  function FormatStudy(study: OrthancStudy): (r: StudySummary)
    ensures r.studyId == study.id && r.orthancId == Some(r.studyId)
    ensures r.imageUrl == ImageUrlScheme + r.studyId
    ensures r.modality == PlaceholderModality
    ensures r.mediaType == Dicom && r.mediaType.Tag() == "dicom"
    ensures r.source == Orthanc && r.source.Tag() == "orthanc"
    ensures r.studyDate == study.mainDicomTags.studyDate
    ensures r.accessionNumber == study.mainDicomTags.accessionNumber
    ensures r.description != []
    ensures study.mainDicomTags.studyDescription != [] ==> r.description == study.mainDicomTags.studyDescription
    ensures study.mainDicomTags.studyDescription == [] ==> r.description == DefaultDescription
  {
    var tags := study.mainDicomTags;
    StudySummary(
      study.id,
      tags.studyDate,
      PlaceholderModality,
      if tags.studyDescription != [] then tags.studyDescription else DefaultDescription,
      tags.accessionNumber,
      ImageUrlScheme + study.id,
      Dicom,
      Orthanc,
      Some(study.id))
  }

  function FormatStudies(studies: seq<OrthancStudy>): (r: seq<StudySummary>)
    ensures |r| == |studies|
    ensures forall k :: 0 <= k < |studies| ==> r[k] == FormatStudy(studies[k])
  {
    seq(|studies|, k requires 0 <= k < |studies| => FormatStudy(studies[k]))
  }

  /** One patient's display group, its studies listed through the archive id. */
  function GroupPatient(a: Archive, patient: OrthancPatient): (r: Result<GroupedPatientStudy>)
    ensures r.Success? <==> GetStudiesForPatient(a, patient.id).Success?
    ensures r.Success? ==>
      r.value.patientId == patient.mainDicomTags.patientId &&
      r.value.patientName == patient.mainDicomTags.patientName &&
      r.value.studies == FormatStudies(GetStudiesForPatient(a, patient.id).value)
  {
    match GetStudiesForPatient(a, patient.id)
    case Failure => Failure
    case Success(studies) =>
      Success(GroupedPatientStudy(
        patient.mainDicomTags.patientId,
        patient.mainDicomTags.patientName,
        FormatStudies(studies)))
  }

  /** All patients with their studies, grouped per patient. */
  function GetGroupedStudies(a: Archive): (r: Result<seq<GroupedPatientStudy>>)
    ensures r.Success? <==>
      GetPatients(a).Success? &&
      forall k :: 0 <= k < |GetPatients(a).value| ==>
        GetStudiesForPatient(a, GetPatients(a).value[k].id).Success?
  {
    match GetPatients(a)
    case Failure => Failure
    case Success(patients) => MapAll(patients, (p: OrthancPatient) => GroupPatient(a, p))
  }

  // ---------------------------------------------------------------------
  // Locators
  // ---------------------------------------------------------------------

  const OrthancUrl: string := "http://localhost:8042"
  const InstancesPrefix: string := OrthancUrl + "/instances/"

  /** The instance id of `url` if it is the archive's URL for that
      instance's `segment` resource. */
  function InstanceIdIn(url: string, segment: string): (id: Option<string>)
  {
    var tail := "/" + segment;
    if |url| >= |InstancesPrefix| + |tail| &&
       url[..|InstancesPrefix|] == InstancesPrefix &&
       url[|url| - |tail|..] == tail
    then Some(url[|InstancesPrefix|..|url| - |tail|])
    else None
  }

  function GetDicomFileUrl(instanceId: string): (url: string)
    ensures InstanceIdIn(url, "file") == Some(instanceId)
  {
    var url := OrthancUrl + "/instances/" + instanceId + "/file";
    assert url == InstancesPrefix + instanceId + "/file";
    url
  }

  function GetPreviewUrl(instanceId: string): (url: string)
    ensures InstanceIdIn(url, "preview") == Some(instanceId)
  {
    var url := OrthancUrl + "/instances/" + instanceId + "/preview";
    assert url == InstancesPrefix + instanceId + "/preview";
    url
  }

  function GetWadoUrl(studyUid: string, seriesUid: string, instanceUid: string): (url: string)
  {
    OrthancUrl + "/wado?requestType=WADO&studyUID=" + studyUid + "&seriesUID=" + seriesUid +
      "&objectUID=" + instanceUid + "&contentType=application/dicom"
  }

  // ---------------------------------------------------------------------
  // Availability
  // ---------------------------------------------------------------------

  /** The archive is available exactly when GET /system succeeds; a failed
      probe is reported as `false`, never as an error. */
  function CheckOrthancAvailability(a: Archive): (available: bool)
    ensures available <==> a.system.Success?
  {
    match a.system
    case Success(_) => true
    case Failure => false
  }

  // ---------------------------------------------------------------------
  // Properties of the aggregation
  // ---------------------------------------------------------------------

  /** A successful aggregation has exactly one group per listed patient, in
      listing order; each group is named from the patient's DICOM tags and
      holds the formatted studies listed under the patient's archive id. */
  lemma GroupedStudiesPerPatient(a: Archive)
    requires GetGroupedStudies(a).Success?
    ensures GetPatients(a).Success?
    ensures var ids, patients, groups := a.patientIds.value, GetPatients(a).value, GetGroupedStudies(a).value;
      |groups| == |patients| == |ids| &&
      forall k :: 0 <= k < |groups| ==>
        a.patient(ids[k]) == Success(patients[k]) &&
        groups[k].patientId == patients[k].mainDicomTags.patientId &&
        groups[k].patientName == patients[k].mainDicomTags.patientName &&
        GetStudiesForPatient(a, patients[k].id).Success? &&
        groups[k].studies == FormatStudies(GetStudiesForPatient(a, patients[k].id).value)
  {
  }

  /** Within a group, the studies are the archive's studies of that patient,
      one summary per fetched study, in the archive's order. */
  lemma GroupStudiesInArchiveOrder(a: Archive, k: nat, j: nat)
    requires GetGroupedStudies(a).Success?
    requires k < |GetGroupedStudies(a).value|
    ensures GetPatients(a).Success? && k < |GetPatients(a).value|
    ensures var patient := GetPatients(a).value[k];
      var listing := a.studyIdsOfPatient(patient.id);
      var group := GetGroupedStudies(a).value[k];
      listing.Success? && |group.studies| == |listing.value| &&
      (j < |group.studies| ==>
        a.study(listing.value[j]) == Success(GetStudiesForPatient(a, patient.id).value[j]) &&
        group.studies[j] == FormatStudy(GetStudiesForPatient(a, patient.id).value[j]) &&
        group.studies[j].studyId == GetStudiesForPatient(a, patient.id).value[j].id)
  {
  }

  /** One patient whose studies cannot be read fails the whole aggregation. */
  lemma GroupedStudiesAllOrNothing(a: Archive, k: nat)
    requires GetPatients(a).Success? && k < |GetPatients(a).value|
    requires GetStudiesForPatient(a, GetPatients(a).value[k].id).Failure?
    ensures GetGroupedStudies(a) == Failure
  {
  }

  // ---------------------------------------------------------------------
  // Properties of the locators
  // ---------------------------------------------------------------------

  /** A URL is the file URL of `id` exactly when it reads back as `id`. */
  lemma DicomFileUrlExactly(url: string, id: string)
    ensures InstanceIdIn(url, "file") == Some(id) <==> url == GetDicomFileUrl(id)
  {
  }

  lemma PreviewUrlExactly(url: string, id: string)
    ensures InstanceIdIn(url, "preview") == Some(id) <==> url == GetPreviewUrl(id)
  {
  }

  /** The file and preview URLs of one instance share the instance resource
      and differ only in the last segment. */
  lemma FileAndPreviewShareResource(id: string)
    ensures var resource := OrthancUrl + "/instances/" + id;
      var file, preview := GetDicomFileUrl(id), GetPreviewUrl(id);
      |resource| <= |file| && |resource| <= |preview| &&
      file[..|resource|] == preview[..|resource|] == resource &&
      file[|resource|..] == "/file" && preview[|resource|..] == "/preview" &&
      resource[|InstancesPrefix|..] == id
  {
  }

  /** No file URL is a preview URL, whatever the two instance ids. */
  lemma FileAndPreviewNeverCollide(a: string, b: string)
    ensures GetDicomFileUrl(a) != GetPreviewUrl(b)
  {
    var file, preview := GetDicomFileUrl(a), GetPreviewUrl(b);
    assert file[|file| - 1] == 'e';
    assert preview[|preview| - 1] == 'w';
  }

  const WadoEndpoint: string := OrthancUrl + "/wado"
  const RequestTypeParameter: string := "requestType=WADO"
  const ContentTypeParameter: string := "contentType=application/dicom"

  /** The query parameters of a WADO-URI request, in the order the URL lists them. */
  function WadoParameters(studyUid: string, seriesUid: string, instanceUid: string): seq<string> {
    [RequestTypeParameter,
     "studyUID=" + studyUid,
     "seriesUID=" + seriesUid,
     "objectUID=" + instanceUid,
     ContentTypeParameter]
  }

  // Proof scaffolding, not properties of the model: facts about the fixed
  // text of the WADO template. Each is a separate lemma only to keep the
  // solver's cost per proof low; stated together they cost several times more.

  lemma WadoEndpointHasNoQuery()
    ensures '?' !in WadoEndpoint
  {
  }

  lemma WadoFixedTextHasNoAmpersand()
    ensures '&' !in RequestTypeParameter && '&' !in ContentTypeParameter
    ensures '&' !in "studyUID=" && '&' !in "seriesUID=" && '&' !in "objectUID="
  {
  }

  lemma WadoTemplateHead()
    ensures "/wado?requestType=WADO&studyUID=" == "/wado" + "?" + RequestTypeParameter + "&" + "studyUID="
  {
  }

  lemma WadoTemplateSeparators()
    ensures "&seriesUID=" == "&" + "seriesUID=" && "&objectUID=" == "&" + "objectUID="
  {
  }

  lemma WadoTemplateTail()
    ensures "&contentType=application/dicom" == "&" + ContentTypeParameter
  {
  }

  /** Proof scaffolding: the regrouping of the WADO template's concatenation,
      stated over opaque pieces so that the solver does not unfold the
      literals while regrouping. */
  lemma WadoRegrouped(base: string, head: string, s: string, b: string, r: string, c: string, i: string, d: string,
                      endpoint: string, p0: string, k1: string, k2: string, k3: string, p4: string)
    requires head == endpoint + "?" + p0 + "&" + k1
    requires b == "&" + k2 && c == "&" + k3 && d == "&" + p4
    ensures base + head + s + b + r + c + i + d ==
      base + endpoint + ['?'] + (p0 + ['&'] + ((k1 + s) + ['&'] + ((k2 + r) + ['&'] + ((k3 + i) + ['&'] + p4))))
  {
  }

  /** The WADO URL is its endpoint, '?', and the five parameters joined by '&'. */
  lemma WadoUrlJoined(studyUid: string, seriesUid: string, instanceUid: string)
    ensures GetWadoUrl(studyUid, seriesUid, instanceUid) ==
      WadoEndpoint + ['?'] + QueryString.Join(WadoParameters(studyUid, seriesUid, instanceUid), '&')
  {
    WadoTemplateHead();
    WadoTemplateSeparators();
    WadoTemplateTail();
    WadoRegrouped(OrthancUrl, "/wado?requestType=WADO&studyUID=", studyUid, "&seriesUID=", seriesUid,
      "&objectUID=", instanceUid, "&contentType=application/dicom",
      "/wado", RequestTypeParameter, "studyUID=", "seriesUID=", "objectUID=", ContentTypeParameter);
    QueryString.JoinFive(RequestTypeParameter, "studyUID=" + studyUid, "seriesUID=" + seriesUid,
      "objectUID=" + instanceUid, ContentTypeParameter, '&');
  }

  /** The WADO-URI query: five parameters in a fixed order, each UID copied
      verbatim, as long as the UIDs hold no '&' (DICOM UIDs are digits and dots). */
  lemma WadoQueryParameters(studyUid: string, seriesUid: string, instanceUid: string)
    requires '&' !in studyUid && '&' !in seriesUid && '&' !in instanceUid
    ensures var url := GetWadoUrl(studyUid, seriesUid, instanceUid);
      var query := QueryString.AfterFirst(url, '?');
      url == WadoEndpoint + "?" + query &&
      QueryString.Split(query, '&') == [
        "requestType=WADO",
        "studyUID=" + studyUid,
        "seriesUID=" + seriesUid,
        "objectUID=" + instanceUid,
        "contentType=application/dicom"]
  {
    var params := WadoParameters(studyUid, seriesUid, instanceUid);
    WadoUrlJoined(studyUid, seriesUid, instanceUid);
    WadoEndpointHasNoQuery();
    WadoFixedTextHasNoAmpersand();
    QueryString.AfterFirstPast(WadoEndpoint, '?', QueryString.Join(params, '&'));
    QueryString.SplitJoin(params, '&');
  }

  /** The UIDs are not encoded: an '&' inside the study UID cuts it into two
      query parameters. */
  lemma WadoUidNotEncoded(before: string, after: string, seriesUid: string, instanceUid: string)
    requires '&' !in before && '&' !in after && '&' !in seriesUid && '&' !in instanceUid
    ensures var query := QueryString.AfterFirst(GetWadoUrl(before + "&" + after, seriesUid, instanceUid), '?');
      QueryString.Split(query, '&') == [
        "requestType=WADO",
        "studyUID=" + before,
        after,
        "seriesUID=" + seriesUid,
        "objectUID=" + instanceUid,
        "contentType=application/dicom"]
  {
    var params := WadoParameters(before + "&" + after, seriesUid, instanceUid);
    var studyKey := "studyUID=" + before;
    var rest := params[2..];
    var cut := [params[0]] + ([studyKey] + ([after] + rest));
    WadoUrlJoined(before + "&" + after, seriesUid, instanceUid);
    WadoEndpointHasNoQuery();
    WadoFixedTextHasNoAmpersand();
    assert params[1] == studyKey + ['&'] + after;
    assert params == [params[0]] + ([studyKey + ['&'] + after] + rest);
    QueryString.JoinCons(params[0], [studyKey + ['&'] + after] + rest, '&');
    QueryString.JoinCons(params[0], [studyKey] + ([after] + rest), '&');
    QueryString.JoinCut(studyKey, after, rest, '&');
    QueryString.AfterFirstPast(WadoEndpoint, '?', QueryString.Join(cut, '&'));
    QueryString.SplitJoin(cut, '&');
  }
}
