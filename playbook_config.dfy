/**
 * playbook_golden/playbook_config.py: the golden-playbook configuration
 * table — one entry per playbook naming its service type, the deliverable
 * output keys, the workflow phases and trace nodes a run must show, the
 * profile overrides to answer cards with, the phrases the generated docx
 * must contain and the evidence files to upload — and its lookup.
 *
 * The table is a `dict`, so its declaration order is kept. Each entry is
 * written in two halves keyed by the same id: its workflow shape, held in
 * the ordered `Shapes` table, and its case materials, given by
 * `CaseMaterials`. The properties of the table are about the shapes.
 */
module Playbooks {
  import opened Json

  datatype PlaybookConfig = PlaybookConfig(
    playbookId: string,
    serviceTypeId: string,
    primaryOutputKey: string,
    alternateOutputKeys: seq<string>,
    requiredPhases: seq<string>,
    requiredTraceNodes: seq<string>,
    profileOverrides: seq<Field>,
    docxMustInclude: seq<string>,
    evidenceFiles: seq<string>)

  /** The workflow half of an entry: ids, output keys, phases and trace nodes. */
  datatype Shape = Shape(
    playbookId: string,
    serviceTypeId: string,
    primaryOutputKey: string,
    alternateOutputKeys: seq<string>,
    requiredPhases: seq<string>,
    requiredTraceNodes: seq<string>)

  /** The case half of an entry: card overrides, docx phrases and evidence files. */
  datatype Materials = Materials(
    profileOverrides: seq<Field>,
    docxMustInclude: seq<string>,
    evidenceFiles: seq<string>)

  /** The dataclass defaults: every list and dict field omitted from an entry is empty. */
  const NoMaterials := Materials([], [], [])

  /** The workflow shapes of `PLAYBOOK_CONFIGS`, in declaration order; an omitted alternates list is `[]`. */
  function Shapes(): seq<Shape>
  {
    [
      Shape("litigation_civil_prosecution", "civil_first_instance", "civil_complaint",
        [],
        ["kickoff", "intake", "claim_path", "execute"],
        ["litigation-intake", "cause-recommendation", "document-generation"]),
      Shape("litigation_civil_defense", "civil_defense", "defense_statement",
        [],
        ["kickoff", "intake", "execute"],
        ["complaint-analysis", "defense-planning", "document-generation"]),
      Shape("litigation_civil_appeal_appellant", "civil_appeal_appellant", "appeal_brief",
        [],
        ["kickoff", "intake", "execute"],
        ["appeal-intake", "document-generation"]),
      Shape("litigation_civil_appeal_appellee", "civil_appeal_appellee", "appeal_defense",
        [],
        ["kickoff", "intake", "execute"],
        ["appeal-intake", "document-generation"]),
      Shape("litigation_criminal", "criminal_defense", "defense_opinion",
        [],
        ["kickoff", "intake", "execute"],
        ["criminal-intake", "document-generation"]),
      Shape("arbitration_labor", "labor_arbitration", "labor_arbitration",
        ["labor_defense"],
        ["kickoff", "intake", "execute"],
        ["arbitration-intake", "document-generation"]),
      Shape("arbitration_commercial", "commercial_arbitration", "arbitration_application",
        ["arbitration_defense"],
        ["kickoff", "intake", "execute"],
        ["arbitration-intake", "document-generation"]),
      Shape("contract_review", "contract_review", "contract_review_report",
        ["modification_suggestion"],
        ["kickoff", "qualify", "execute"],
        ["contract-intake", "contract-review", "document-generation"]),
      Shape("legal_opinion", "legal_opinion", "legal_opinion",
        [],
        ["kickoff", "qualify", "execute"],
        ["legal-opinion-intake", "legal-opinion-analysis", "document-generation"]),
      Shape("due_diligence", "due_diligence", "due_diligence_report",
        [],
        ["kickoff", "qualify", "execute"],
        ["due-diligence-intake", "document-generation"]),
      Shape("document_drafting", "document_drafting", "civil_complaint",
        ["defense_statement", "appeal_brief", "labor_arbitration"],
        ["kickoff", "qualify", "execute"],
        ["document-drafting-intake", "document-generation"]),
      Shape("consultation_general", "legal_consultation", "",
        [],
        ["kickoff", "consulting"],
        ["consult-intake"])
    ]
  }

  /** The case materials of the entry stored under `playbookId`. */
  function CaseMaterials(playbookId: string): Materials
  {
    match playbookId
    case "litigation_civil_prosecution" =>
      Materials(
        [
          Field("profile.facts", Str(
            "原告：张三E2E_GOLDEN。被告：李四E2E_GOLDEN。案由：民间借贷纠纷。"
            + "事实：2023-01-01，被告向原告借款人民币100000元，约定2023-12-31前归还。"
            + "到期后被告未还，原告多次催收无果。证据：借条、转账记录。")),
          Field("profile.claims", Str("返还本金100000元，并按年利率6%支付逾期利息，承担诉讼费。")),
          Field("profile.decisions.selected_documents", List([Str("civil_complaint")]))],
        ["张三E2E_GOLDEN", "李四E2E_GOLDEN", "起诉"],
        ["iou_golden.txt"])
    case "litigation_civil_defense" =>
      Materials(
        [
          Field("profile.facts", Str(
            "我方（被告）张三E2E_GOLDEN_DEF，收到原告王五E2E_GOLDEN_DEF起诉，主张民间借贷50000元及利息。"
            + "我方认为双方存在其他往来款，借条真实性存疑；我方已部分还款。")),
          Field("profile.decisions.selected_documents", List([Str("defense_statement")]))],
        ["答辩", "张三E2E_GOLDEN_DEF", "王五E2E_GOLDEN_DEF"],
        ["opponent_complaint_golden.txt"])
    case "litigation_civil_appeal_appellant" =>
      Materials(
        [
          Field("profile.facts", Str(
            "上诉人：张三E2E_GOLDEN_APP。被上诉人：李四E2E_GOLDEN_APP。"
            + "一审判决认定事实错误，适用法律不当，请求二审法院依法改判。")),
          Field("profile.decisions.selected_documents", List([Str("appeal_brief")]))],
        ["上诉", "张三E2E_GOLDEN_APP"],
        ["first_instance_judgment_golden.txt"])
    case "litigation_civil_appeal_appellee" =>
      Materials(
        [
          Field("profile.facts", Str(
            "被上诉人：张三E2E_GOLDEN_APPELLEE。上诉人：李四E2E_GOLDEN_APPELLEE。"
            + "一审判决认定事实清楚，适用法律正确，请求二审法院驳回上诉，维持原判。")),
          Field("profile.decisions.selected_documents", List([Str("appeal_defense")]))],
        ["答辩", "张三E2E_GOLDEN_APPELLEE"],
        ["appeal_brief_golden.txt", "first_instance_judgment_appellee_golden.txt"])
    case "litigation_criminal" =>
      Materials(
        [
          Field("profile.facts", Str(
            "当事人：张三E2E_GOLDEN_CRIM，涉嫌盗窃罪。案件处于审查起诉阶段。"
            + "辩护要点：涉案金额认定存疑，当事人有自首情节，建议从轻处罚。")),
          Field("profile.decisions.selected_documents", List([Str("defense_opinion")]))],
        ["辩护", "张三E2E_GOLDEN_CRIM"],
        ["criminal_case_materials_golden.txt"])
    case "arbitration_labor" =>
      Materials(
        [
          Field("profile.facts", Str(
            "申请人：张三E2E_GOLDEN_LABOR。被申请人：某公司E2E_GOLDEN_LABOR。"
            + "争议类型：违法解除劳动合同。请求支付经济补偿金及赔偿金共计50000元。")),
          Field("profile.decisions.selected_documents", List([Str("labor_arbitration")]))],
        ["仲裁", "张三E2E_GOLDEN_LABOR"],
        ["labor_contract_golden.txt"])
    case "arbitration_commercial" =>
      Materials(
        [
          Field("profile.facts", Str(
            "申请人：甲公司E2E_GOLDEN_COMM。被申请人：乙公司E2E_GOLDEN_COMM。"
            + "争议类型：买卖合同纠纷。合同约定仲裁条款，请求支付货款及违约金共计100000元。")),
          Field("profile.decisions.selected_documents", List([Str("arbitration_application")]))],
        ["仲裁", "甲公司E2E_GOLDEN_COMM"],
        ["commercial_contract_golden.txt"])
    case "contract_review" =>
      Materials(
        [
          Field("profile.facts", Str(
            "请审查一份采购合同：甲方北京甲方科技E2E_GOLDEN，乙方上海乙方供应链E2E_GOLDEN。"
            + "重点关注：违约金是否过高、争议解决条款、免责声明条款。")),
          Field("profile.review_focus", Str("违约金、争议解决、免责声明、付款与交付风险"))],
        ["合同", "甲方", "乙方"],
        ["sample_contract_golden.txt"])
    case "legal_opinion" =>
      Materials(
        [
          Field("profile.facts", Str(
            "委托人：某监理公司E2E_GOLDEN_OPINION。"
            + "事件：员工赵丽珍E2E_GOLDEN非因工死亡（宿舍猝死），家属主张工伤赔偿。"
            + "目标：评估是否构成工伤/视同工伤，梳理公司风险与应对策略。")),
          Field("profile.opinion_topic", Str("非因工死亡是否构成工伤/视同工伤及公司责任风险评估"))],
        ["法律意见", "赵丽珍E2E_GOLDEN"],
        ["background_materials_golden.txt"])
    case "due_diligence" =>
      Materials(
        [
          Field("profile.facts", Str(
            "尽调目标：某科技公司E2E_GOLDEN_DD。尽调目的：股权投资。"
            + "重点关注：公司治理、知识产权、重大诉讼、财务状况。"))],
        ["尽职调查", "某科技公司E2E_GOLDEN_DD"],
        ["company_info_golden.txt"])
    case "document_drafting" =>
      Materials(
        [
          Field("profile.facts", Str(
            "需要起草民事起诉状。原告：张三E2E_GOLDEN_DRAFT。被告：李四E2E_GOLDEN_DRAFT。"
            + "案由：民间借贷纠纷。借款金额：50000元。")),
          Field("profile.decisions.selected_documents", List([Str("civil_complaint")]))],
        ["起诉", "张三E2E_GOLDEN_DRAFT"],
        ["drafting_materials_golden.txt"])
    case "consultation_general" =>
      Materials(
        [
          Field("profile.facts", Str(
            "咨询问题：张三E2E_GOLDEN_CONSULT与李四E2E_GOLDEN_CONSULT存在民间借贷纠纷，"
            + "借款金额30000元，已逾期半年，想了解诉讼时效和起诉流程。"))],
        [],
        ["consult_note_golden.txt"])
    case _ => NoMaterials
  }

  /** The keys of the table, in order. */
  function IdsOf(shapes: seq<Shape>): (r: seq<string>)
    ensures |r| == |shapes|
    ensures forall i :: 0 <= i < |r| ==> r[i] == shapes[i].playbookId
  {
    if shapes == [] then [] else [shapes[0].playbookId] + IdsOf(shapes[1..])
  }

  /** `all_playbook_ids()`: the table's keys in declaration order. */
  function AllPlaybookIds(): (r: seq<string>)
    ensures |r| == |Shapes()|
    ensures forall i :: 0 <= i < |r| ==> r[i] == Shapes()[i].playbookId
  {
    IdsOf(Shapes())
  }

  /** The first shape stored under `id`. */
  function LookupShape(shapes: seq<Shape>, id: string): (r: Option<Shape>)
    ensures r.None? <==> id !in IdsOf(shapes)
    ensures r.Some? ==> r.value in shapes && r.value.playbookId == id
  {
    if shapes == [] then None
    else if shapes[0].playbookId == id then Some(shapes[0])
    else LookupShape(shapes[1..], id)
  }

  /** The whole entry: a shape with the materials stored under its id. */
  function Entry(sh: Shape): (c: PlaybookConfig)
    ensures c.playbookId == sh.playbookId && c.serviceTypeId == sh.serviceTypeId
    ensures c.primaryOutputKey == sh.primaryOutputKey && c.alternateOutputKeys == sh.alternateOutputKeys
    ensures c.requiredPhases == sh.requiredPhases && c.requiredTraceNodes == sh.requiredTraceNodes
  {
    var m := CaseMaterials(sh.playbookId);
    PlaybookConfig(sh.playbookId, sh.serviceTypeId, sh.primaryOutputKey, sh.alternateOutputKeys,
      sh.requiredPhases, sh.requiredTraceNodes, m.profileOverrides, m.docxMustInclude, m.evidenceFiles)
  }

  /** `get_playbook_config(playbook_id)`: the entry, or a ValueError for an unknown id. */
  function GetPlaybookConfig(playbookId: string): (r: Result<PlaybookConfig>)
    ensures r.Err? <==> playbookId !in AllPlaybookIds()
    ensures r.Err? ==> r.error == ValueError
    ensures r.Ok? ==> r.value.playbookId == playbookId
    ensures r.Ok? ==> exists sh :: sh in Shapes() && sh.playbookId == playbookId && r.value == Entry(sh)
  {
    match LookupShape(Shapes(), playbookId)
    case None => Err(ValueError)
    case Some(sh) => Ok(Entry(sh))
  }

  /** The twelve ids, in declaration order. */
  lemma AllPlaybookIdsListed()
    ensures var ids := AllPlaybookIds();
      |ids| == 12
      && ids[0] == "litigation_civil_prosecution" && ids[1] == "litigation_civil_defense"
      && ids[2] == "litigation_civil_appeal_appellant" && ids[3] == "litigation_civil_appeal_appellee"
      && ids[4] == "litigation_criminal" && ids[5] == "arbitration_labor"
      && ids[6] == "arbitration_commercial" && ids[7] == "contract_review"
      && ids[8] == "legal_opinion" && ids[9] == "due_diligence"
      && ids[10] == "document_drafting" && ids[11] == "consultation_general"
  {
  }

  /** Every playbook's phases begin with `kickoff`. */
  lemma PhasesStartWithKickoff()
    ensures forall sh :: sh in Shapes() ==> |sh.requiredPhases| > 0 && sh.requiredPhases[0] == "kickoff"
  {
  }

  /** A playbook with a primary deliverable requires the `document-generation` trace node. */
  lemma DeliverablesNeedDocumentGeneration()
    ensures forall sh :: sh in Shapes() && sh.primaryOutputKey != "" ==> "document-generation" in sh.requiredTraceNodes
  {
  }

  /** Only `consultation_general` has no primary deliverable. */
  lemma OnlyConsultationLacksDeliverable()
    ensures forall sh :: sh in Shapes() ==> (sh.primaryOutputKey == "" <==> sh.playbookId == "consultation_general")
  {
  }

  /**
   * Entries that do not name alternate output keys get the dataclass
   * default, the empty list: only the two arbitrations, contract review and
   * document drafting have alternates.
   */
  lemma AlternatesDefaultEmpty()
    ensures forall sh :: sh in Shapes() ==> (sh.alternateOutputKeys != [] <==>
      sh.playbookId in {"arbitration_labor", "arbitration_commercial", "contract_review", "document_drafting"})
  {
  }

  /** What the lookup returns for a known id carries the table's guarantees. */
  lemma LookupGuarantees(playbookId: string)
    requires playbookId in AllPlaybookIds()
    ensures GetPlaybookConfig(playbookId).Ok?
    ensures var c := GetPlaybookConfig(playbookId).value;
      c.playbookId == playbookId
      && |c.requiredPhases| > 0 && c.requiredPhases[0] == "kickoff"
      && (c.primaryOutputKey != "" ==> "document-generation" in c.requiredTraceNodes)
      && (c.primaryOutputKey == "" <==> playbookId == "consultation_general")
  {
    PhasesStartWithKickoff();
    DeliverablesNeedDocumentGeneration();
    OnlyConsultationLacksDeliverable();
  }
}
