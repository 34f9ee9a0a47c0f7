/** The job-card record and the status rule of the job-card service. */
module JobCardService {
  import opened Api

  datatype JobCardStatus = Active | Completed | Inactive

  /** One test parameter of a report. `reportNo` is `""` when the backend
      sends it blank, null or absent: every use of it treats those alike.
      `sampleNumber` is not sent by the backend; enrichment adds it. */
  datatype JobCardModel = JobCardModel(
    id: int,
    parameterName: string,
    unit: string,
    resultValue: string,
    detectionLimit: string,
    specificationLimit: string,
    protocolUsed: string,
    complies: bool,
    remarks: string,
    isTechanicianChecked: bool,
    isQualityChecked: bool,
    reportNo: string,
    paremeterType: string,
    analystName: string,
    isNabl: bool,
    isApproved: bool,
    createdAt: int,
    updatedAt: int,
    sampleDescription: Option<string>,
    projectName: Option<string>,
    labName: Option<string>,
    sampleNumber: Option<string>)

  /** The lifecycle stage of a job card, from its three flags. */
  function GetJobCardStatus(jc: JobCardModel): (r: JobCardStatus)
    ensures !jc.isApproved && !jc.isTechanicianChecked && !jc.isQualityChecked ==> r == Inactive
    ensures jc.isApproved && !jc.isTechanicianChecked && !jc.isQualityChecked ==> r == Active
    ensures jc.isApproved && (jc.isTechanicianChecked || jc.isQualityChecked) ==> r == Completed
    ensures !jc.isApproved ==> r == Inactive
  {
    if !jc.isApproved && !jc.isTechanicianChecked && !jc.isQualityChecked then Inactive
    else if jc.isApproved && !jc.isTechanicianChecked && !jc.isQualityChecked then Active
    else if jc.isApproved && (jc.isTechanicianChecked || jc.isQualityChecked) then Completed
    else Inactive
  }

  /** A job card is active or completed exactly when it is approved, and
      completed exactly when it is approved and at least one check is done;
      the approval flag alone decides whether it is inactive. */
  lemma StatusCharacterised(jc: JobCardModel)
    ensures GetJobCardStatus(jc) != Inactive <==> jc.isApproved
    ensures GetJobCardStatus(jc) == Completed <==> jc.isApproved && (jc.isTechanicianChecked || jc.isQualityChecked)
    ensures GetJobCardStatus(jc) == Active <==> jc.isApproved && !jc.isTechanicianChecked && !jc.isQualityChecked
  {
  }

  /** The status depends on the three flags and nothing else. */
  lemma StatusDependsOnFlagsOnly(a: JobCardModel, b: JobCardModel)
    requires a.isApproved == b.isApproved
    requires a.isTechanicianChecked == b.isTechanicianChecked
    requires a.isQualityChecked == b.isQualityChecked
    ensures GetJobCardStatus(a) == GetJobCardStatus(b)
  {
  }
}
