/** The profile the site presents, as far as its logic reads it. */
module PortfolioData {
  import opened PortfolioTypes

  const Name: string := "Muhamed Fiham"
  const Title: string := "Sr. Quantity Surveyor / Contract Administrator"
  const Email: string := "fiham121@gmail.com"
  /** Two numbers separated by `|`, each with spaces and a leading `+`. */
  const Phone: string := "+971 56 123 3613 | +94 76 729 8328"

  const Skills: seq<Skill> := [
    Skill("Contract Administration", 95, Commercial),
    Skill("Quantity Surveying", 95, Commercial),
    Skill("Claims & FIDIC", 85, Commercial),
    Skill("AutoCAD 2D", 95, Engineering),
    Skill("Advanced Excel (VBA/PowerQuery)", 92, Data),
    Skill("Power BI", 80, Data),
    Skill("AutoLISP Automation", 80, Software),
    Skill("CostX & PlanSwift", 85, Software),
    Skill("SAP S/4HANA & Oracle", 75, Software),
    Skill("BOQ Preparation (POMI/NRM)", 95, Engineering)
  ]

  const Services: seq<Service> := [
    Service("Commercial & Contract Management", "FileText"),
    Service("QS & Cost Estimation", "Calculator"),
    Service("Drafting & Automation", "Ruler"),
    Service("Data Analysis & Reporting", "BarChart3")
  ]

  /** The persona prompt sent with every live request; it embeds the name, title and e-mail. */
  const SystemInstruction: string :=
    "\nYou are an AI assistant representing Muhamed Fiham.\nProfile:\nName: " + Name
    + "\nRole: " + Title
    + "\nExperience: 6+ years in GCC and Sri Lanka.\nKey Skills: Contract Administration, Claims (FIDIC), AutoLISP, Advanced Excel.\nContact: " + Email
    + "\n\nGoal: Answer recruiter questions professionally.\nTone: Confident, Professional, Technical.\nIf asked about automation: Mention AutoLISP scripts for CAD and VBA for Excel.\nIf asked about contracts: Mention experience with FIDIC, claims, and EOT.\n"
}
