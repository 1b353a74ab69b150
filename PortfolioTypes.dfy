/** The record types the site's logic works on. */
module PortfolioTypes {

  /** The skill categories, in declaration order. */
  datatype SkillCategory = Commercial | Software | Data | Engineering

  /** The string value each category carries; the site compares categories by it. */
  function CategoryLabel(c: SkillCategory): string
  {
    match c
    case Commercial => "Commercial & Contracts"
    case Software => "Software & Tools"
    case Data => "Data & Analytics"
    case Engineering => "Engineering & Drafting"
  }

  /** Different categories carry different strings, so comparing by string is comparing by category. */
  lemma CategoryLabelInjective(c1: SkillCategory, c2: SkillCategory)
    ensures CategoryLabel(c1) == CategoryLabel(c2) <==> c1 == c2
  {
    var l1, l2 := CategoryLabel(c1), CategoryLabel(c2);
    assert c1 != c2 ==> l1[0] != l2[0];
  }

  /** `Object.values(SkillCategory)`: every category once, in declaration order. */
  const AllCategories: seq<SkillCategory> := [Commercial, Software, Data, Engineering]

  /** A skill with its proficiency level (0 to 100 by convention, not checked). */
  datatype Skill = Skill(name: string, level: int, category: SkillCategory)

  /** A service offered; `icon` names the picture to show for it. */
  datatype Service = Service(title: string, icon: string)

  /** Who wrote a chat message: the visitor or the assistant. */
  datatype Role = User | Model

  /** One entry of the chat transcript. */
  datatype ChatMessage = ChatMessage(role: Role, text: string)
}
