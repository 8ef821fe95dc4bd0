/** `src/lib/validations/sales-funnel.ts`: the sales-opportunity form schema and
    the stage, team and status select lists. */
module SalesFunnelSchema {
  import opened Common
  import opened Seqs
  import opened Calendar

  /** The stage enum of the schema, in the order the schema lists it. */
  const StageEnum: seq<string> := ["Closed", "Won", "Hot", "Warm", "Cold", "Lost"]
  const TeamEnum: seq<string> := ["FAS", "PAS", "CCTV", "Access", "Other", "Бараа нийлүүлэлт"]
  const StatusEnum: seq<string> := ["Not started", "In progress", "Complate"]

  /** The `stages` select list: the funnel from cold to lost. */
  const Stages: seq<Choice> := [
    Choice("Cold", "Хүйтэн"), Choice("Warm", "Дулаан"), Choice("Hot", "Халуун"),
    Choice("Won", "Хожсон"), Choice("Closed", "Хаагдсан"), Choice("Lost", "Алдсан")
  ]

  const Teams: seq<Choice> := [
    Choice("FAS", "FAS"), Choice("PAS", "PAS"), Choice("CCTV", "CCTV"),
    Choice("Access", "Access"), Choice("Бараа нийлүүлэлт", "Бараа нийлүүлэлт"), Choice("Other", "Бусад")
  ]

  const Statuses: seq<Choice> := [
    Choice("Not started", "Эхлээгүй"), Choice("In progress", "Хийгдэж буй"), Choice("Complate", "Дууссан")
  ]

  /** The six stage names in funnel order: the board's columns and the keys of every per-stage grouping. */
  const StageNames: seq<string> := ["Cold", "Warm", "Hot", "Won", "Closed", "Lost"]

  /** The form data; `optional().nullable()` fields are None when absent or null.
      Date fields carry the day the form's date text denotes. */
  datatype Form = Form(
    clientName: string,
    workInfo: Option<string>,
    stage: string,
    price: Option<int>,
    paymentPercentage: Option<real>,
    paidAmount: Option<int>,
    createdDate: Option<Date>,
    closeDate: Option<Date>,
    teamMember: Option<string>,
    progressNotes: Option<string>,
    status: Option<string>,
    remarks: Option<string>)

  /** What the schema accepts. */
  predicate Valid(f: Form)
  {
    |f.clientName| >= 1
    && f.stage in StageEnum
    && (f.price.Some? ==> f.price.value >= 0)
    && (f.paymentPercentage.Some? ==> 0.0 <= f.paymentPercentage.value <= 1.0)
    && (f.paidAmount.Some? ==> f.paidAmount.value >= 0)
    && (f.teamMember.Some? ==> f.teamMember.value in TeamEnum)
    && (f.status.Some? ==> f.status.value in StatusEnum)
  }

  /** The issues the schema reports, field by field in declaration order; the
      form parses exactly when there are none. */
  function Issues(f: Form): (r: seq<Issue>)
    ensures r == [] <==> Valid(f)
    ensures |r| <= 8
  {
    Check(|f.clientName| >= 1, "client_name", "Харилцагчийн нэр оруулна уу")
    + Check(f.stage in StageEnum, "stage", "Stage сонгоно уу")
    + Check(f.price.None? || f.price.value >= 0, "price", "Үнэ 0-ээс их байх ёстой")
    + Check(f.paymentPercentage.None? || f.paymentPercentage.value >= 0.0, "payment_percentage", "")
    + Check(f.paymentPercentage.None? || f.paymentPercentage.value <= 1.0, "payment_percentage", "")
    + Check(f.paidAmount.None? || f.paidAmount.value >= 0, "paid_amount", "")
    + Check(f.teamMember.None? || f.teamMember.value in TeamEnum, "team_member", "")
    + Check(f.status.None? || f.status.value in StatusEnum, "status", "")
  }

  /** The stage select list holds the funnel order, each stage once, and offers
      exactly the stages the schema accepts. */
  lemma StageTable()
    ensures Values(Stages) == StageNames
    ensures Distinct(StageNames)
    ensures forall s :: s in StageNames <==> s in StageEnum
  {
  }

  /** The team and status select lists offer exactly what the schema accepts. */
  lemma TeamAndStatusTables()
    ensures Distinct(Values(Teams)) && forall t :: t in Values(Teams) <==> t in TeamEnum
    ensures Distinct(Values(Statuses)) && forall s :: s in Values(Statuses) <==> s in StatusEnum
  {
    assert Values(Teams) == ["FAS", "PAS", "CCTV", "Access", "Бараа нийлүүлэлт", "Other"];
    assert Values(Statuses) == StatusEnum;
  }
}
