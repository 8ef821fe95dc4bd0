/** `src/lib/validations/service-contract.ts`: the service-contract form schema
    and its stage select list. */
module ServiceContractSchema {
  import opened Common
  import opened Seqs
  import opened Calendar

  const StageEnum: seq<string> := ["Closed", "Hot", "Warm"]
  const StatusEnum: seq<string> := ["Not started", "In progress", "Complate"]

  const ServiceContractStages: seq<Choice> := [
    Choice("Warm", "Дулаан"), Choice("Hot", "Халуун"), Choice("Closed", "Хаагдсан")
  ]

  /** The form data; `optional().nullable()` fields are None when absent or null. */
  datatype Form = Form(
    clientName: string,
    contractInfo: Option<string>,
    stage: string,
    price: Option<int>,
    paymentPercentage: Option<real>,
    yearlyPayment: Option<int>,
    createdDate: Option<Date>,
    closeDate: Option<Date>,
    progressNotes: Option<string>,
    status: Option<string>,
    remarks: Option<string>)

  predicate Valid(f: Form)
  {
    |f.clientName| >= 1
    && f.stage in StageEnum
    && (f.price.Some? ==> f.price.value >= 0)
    && (f.paymentPercentage.Some? ==> 0.0 <= f.paymentPercentage.value <= 1.0)
    && (f.yearlyPayment.Some? ==> f.yearlyPayment.value >= 0)
    && (f.status.Some? ==> f.status.value in StatusEnum)
  }

  /** The issues the schema reports; the form parses exactly when there are none. */
  function Issues(f: Form): (r: seq<Issue>)
    ensures r == [] <==> Valid(f)
    ensures |r| <= 7
  {
    Check(|f.clientName| >= 1, "client_name", "Харилцагчийн нэр оруулна уу")
    + Check(f.stage in StageEnum, "stage", "Stage сонгоно уу")
    + Check(f.price.None? || f.price.value >= 0, "price", "Үнэ 0-ээс их байх ёстой")
    + Check(f.paymentPercentage.None? || f.paymentPercentage.value >= 0.0, "payment_percentage", "")
    + Check(f.paymentPercentage.None? || f.paymentPercentage.value <= 1.0, "payment_percentage", "")
    + Check(f.yearlyPayment.None? || f.yearlyPayment.value >= 0, "yearly_payment", "")
    + Check(f.status.None? || f.status.value in StatusEnum, "status", "")
  }

  /** The select list offers each contract stage once, exactly the stages the schema accepts. */
  lemma StageTable()
    ensures Distinct(Values(ServiceContractStages))
    ensures forall s :: s in Values(ServiceContractStages) <==> s in StageEnum
  {
    assert Values(ServiceContractStages) == ["Warm", "Hot", "Closed"];
  }
}
