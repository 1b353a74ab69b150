/**
  The page's derived values and its own state: the radar chart data, the
  category buttons, the filtered skill list, the phone links, the title lines,
  the service icons, and the mobile menu and category selection.
*/
module App {
  import opened JsString
  import opened PortfolioTypes
  import PortfolioData

  /** One point of the radar chart. */
  datatype RadarPoint = RadarPoint(subject: string, a: int, fullMark: int)

  /** One point per skill, in order: the name as subject, the level as value, out of 100. */
  function RadarData(skills: seq<Skill>): (points: seq<RadarPoint>)
    ensures |points| == |skills|
    ensures forall i :: 0 <= i < |points| ==>
      points[i].subject == skills[i].name && points[i].a == skills[i].level && points[i].fullMark == 100
  {
    if skills == [] then []
    else [RadarPoint(skills[0].name, skills[0].level, 100)] + RadarData(skills[1..])
  }

  const AllLabel: string := "All"

  /** The category buttons: `All` first, then every category's label in declaration order. */
  function Categories(): (labels: seq<string>)
    ensures |labels| == 5 && labels[0] == AllLabel
    ensures forall i :: 0 <= i < 4 ==> labels[i + 1] == CategoryLabel(AllCategories[i])
  {
    [AllLabel] + seq(|AllCategories|, i requires 0 <= i < |AllCategories| => CategoryLabel(AllCategories[i]))
  }

  /** No two buttons carry the same label, and every skill's category has a button. */
  lemma CategoriesDistinctAndComplete(skill: Skill)
    ensures forall i, j :: 0 <= i < j < |Categories()| ==> Categories()[i] != Categories()[j]
    ensures CategoryLabel(skill.category) in Categories()[1..]
  {
    var c := Categories();
    forall i, j | 0 <= i < j < |c| ensures c[i] != c[j] {
      if i > 0 {
        CategoryLabelInjective(AllCategories[i - 1], AllCategories[j - 1]);
      } else {
        assert c[i][0] != c[j][0];
      }
    }
    match skill.category
    case Commercial => assert c[1] == CategoryLabel(Commercial);
    case Software => assert c[2] == CategoryLabel(Software);
    case Data => assert c[3] == CategoryLabel(Data);
    case Engineering => assert c[4] == CategoryLabel(Engineering);
  }

  /** `xs` is `ys` with some entries left out, the rest in their original order. */
  ghost predicate IsSubsequence<T>(xs: seq<T>, ys: seq<T>)
    decreases |ys|
  {
    if ys == [] then xs == []
    else (xs != [] && xs[0] == ys[0] && IsSubsequence(xs[1..], ys[1..])) || IsSubsequence(xs, ys[1..])
  }

  /** The skills whose category label is `wanted`, in their original order. */
  function FilterByLabel(skills: seq<Skill>, wanted: string): (kept: seq<Skill>)
    ensures IsSubsequence(kept, skills)
    ensures forall i :: 0 <= i < |kept| ==> CategoryLabel(kept[i].category) == wanted
  {
    if skills == [] then []
    else
      var rest := FilterByLabel(skills[1..], wanted);
      if CategoryLabel(skills[0].category) == wanted then
        var kept := [skills[0]] + rest;
        assert kept[1..] == rest;
        kept
      else
        rest
  }

  /** No skill of the wanted category is dropped and no other is kept: each is kept as often as it occurs. */
  lemma {:induction false} FilterByLabelCounts(skills: seq<Skill>, wanted: string)
    ensures forall s ::
      multiset(FilterByLabel(skills, wanted))[s] == if CategoryLabel(s.category) == wanted then multiset(skills)[s] else 0
  {
    if skills != [] {
      FilterByLabelCounts(skills[1..], wanted);
      assert skills == [skills[0]] + skills[1..];
    }
  }

  /**
    The skill grid: every skill for `All`; otherwise the skills whose category
    label equals the selection, in order, each as often as it occurs (none for
    a string that is no label).
  */
  function FilteredSkills(skills: seq<Skill>, activeCategory: string): (shown: seq<Skill>)
    ensures activeCategory == AllLabel ==> shown == skills
    ensures activeCategory != AllLabel ==>
      && IsSubsequence(shown, skills)
      && (forall i :: 0 <= i < |shown| ==> CategoryLabel(shown[i].category) == activeCategory)
      && (forall s :: multiset(shown)[s] == if CategoryLabel(s.category) == activeCategory then multiset(skills)[s] else 0)
  {
    if activeCategory == AllLabel then skills
    else
      FilterByLabelCounts(skills, activeCategory);
      FilterByLabel(skills, activeCategory)
  }

  /** Filtering by each of the four categories splits the skills: the counts add up to the whole list. */
  lemma {:induction false} CategoryFiltersPartition(skills: seq<Skill>)
    ensures |FilterByLabel(skills, CategoryLabel(Commercial))| + |FilterByLabel(skills, CategoryLabel(Software))|
          + |FilterByLabel(skills, CategoryLabel(Data))| + |FilterByLabel(skills, CategoryLabel(Engineering))|
          == |skills|
  {
    if skills != [] {
      CategoryFiltersPartition(skills[1..]);
    }
  }

  /** When no skill has the wanted category the grid is empty. */
  lemma {:induction false} FilterByLabelNone(skills: seq<Skill>, wanted: SkillCategory)
    requires forall i :: 0 <= i < |skills| ==> skills[i].category != wanted
    ensures FilterByLabel(skills, CategoryLabel(wanted)) == []
  {
    if skills != [] {
      CategoryLabelInjective(skills[0].category, wanted);
      FilterByLabelNone(skills[1..], wanted);
    }
  }

  /** A category held by a leading run of skills and by no later one shows exactly that run. */
  lemma {:induction false} FilterByLabelPrefix(skills: seq<Skill>, wanted: SkillCategory, k: nat)
    requires k <= |skills|
    requires forall i :: 0 <= i < k ==> skills[i].category == wanted
    requires forall i :: k <= i < |skills| ==> skills[i].category != wanted
    ensures FilterByLabel(skills, CategoryLabel(wanted)) == skills[..k]
  {
    if k == 0 {
      FilterByLabelNone(skills, wanted);
    } else {
      var rest := skills[1..];
      assert forall i :: 0 <= i < k - 1 ==> rest[i] == skills[i + 1];
      assert forall i :: k - 1 <= i < |rest| ==> rest[i] == skills[i + 1];
      FilterByLabelPrefix(rest, wanted, k - 1);
      assert FilterByLabel(skills, CategoryLabel(wanted)) == [skills[0]] + FilterByLabel(rest, CategoryLabel(wanted));
      assert [skills[0]] + rest[..k - 1] == skills[..k];
    }
  }

  /** The profile's skills: `Commercial & Contracts` shows exactly the first three. */
  lemma CommercialSkillsOfProfile()
    ensures FilteredSkills(PortfolioData.Skills, CategoryLabel(Commercial)) == PortfolioData.Skills[..3]
  {
    var cats := [Commercial, Commercial, Commercial, Engineering, Data, Data, Software, Software, Software, Engineering];
    assert forall i :: 0 <= i < 10 ==> PortfolioData.Skills[i].category == cats[i];
    FilterByLabelPrefix(PortfolioData.Skills, Commercial, 3);
    assert CategoryLabel(Commercial)[0] != AllLabel[0];
  }

  /** One phone entry: the trimmed text shown and the digits used in the WhatsApp link. */
  datatype PhoneLink = PhoneLink(display: string, waNumber: string)

  /**
    The phone string split on `|`: one entry per piece, so one more than
    there are separators; each link number is the piece's digits in order.
  */
  function PhoneLinks(phone: string): (links: seq<PhoneLink>)
    ensures |links| == Count(phone, '|') + 1
    ensures forall i :: 0 <= i < |links| ==>
      && AllDigits(links[i].waNumber)
      && links[i].waNumber == DigitsOf(Split(phone, '|')[i])
      && links[i].display == Trim(Split(phone, '|')[i])
      && IsTrimmed(links[i].display)
  {
    var pieces := Split(phone, '|');
    seq(|pieces|, i requires 0 <= i < |pieces| => PhoneLink(Trim(pieces[i]), DigitsOf(pieces[i])))
  }

  /** The title split on `/`: one line per piece, each trimmed. */
  function TitleLines(title: string): (lines: seq<string>)
    ensures |lines| == Count(title, '/') + 1
    ensures forall i :: 0 <= i < |lines| ==> IsTrimmed(lines[i]) && lines[i] == Trim(Split(title, '/')[i])
  {
    var pieces := Split(title, '/');
    seq(|pieces|, i requires 0 <= i < |pieces| => Trim(pieces[i]))
  }

  /** The pictures a service card can show. */
  datatype Icon = Ruler | Layout | Database | FileText

  /**
    The service card's picture: each of three icon names has its own picture,
    and every other name, `Ruler` among them, gets the document picture.
  */
  function IconFor(iconName: string): (icon: Icon)
    ensures icon == Ruler <==> iconName == "Calculator"
    ensures icon == Layout <==> iconName == "LayoutTemplate"
    ensures icon == Database <==> iconName == "BarChart3"
    ensures icon == FileText <==> iconName !in {"Calculator", "LayoutTemplate", "BarChart3"}
  {
    if iconName == "Calculator" then Ruler
    else if iconName == "LayoutTemplate" then Layout
    else if iconName == "BarChart3" then Database
    else FileText
  }

  /**
    The profile's services: the estimation card (`Calculator`) shows the ruler
    picture and the drafting card, whose icon name is `Ruler`, falls through to
    the document picture.
  */
  lemma ServiceIconsOfProfile()
    ensures |PortfolioData.Services| == 4
    ensures IconFor(PortfolioData.Services[0].icon) == FileText
    ensures IconFor(PortfolioData.Services[1].icon) == Ruler
    ensures IconFor(PortfolioData.Services[2].icon) == FileText
    ensures IconFor(PortfolioData.Services[3].icon) == Database
  {
    var icons := ["FileText", "Calculator", "Ruler", "BarChart3"];
    assert forall i :: 0 <= i < 4 ==> PortfolioData.Services[i].icon == icons[i];
    assert icons[0][0] == 'F' && icons[2][0] == 'R';
  }

  /** The page's own state: whether the mobile menu is open and which category button is active. */
  class PortfolioPage {
    var isMenuOpen: bool
    var activeCategory: string

    constructor ()
      ensures !isMenuOpen && activeCategory == AllLabel
    {
      isMenuOpen := false;
      activeCategory := AllLabel;
    }

    /** The menu button flips the menu. */
    method ToggleMenu()
      modifies this
      ensures isMenuOpen == !old(isMenuOpen) && activeCategory == old(activeCategory)
    {
      isMenuOpen := !isMenuOpen;
    }

    /** Following a link in the mobile menu closes it, whatever its state. */
    method FollowMobileLink()
      modifies this
      ensures !isMenuOpen && activeCategory == old(activeCategory)
    {
      isMenuOpen := false;
    }

    /** A category button makes its label the active one. */
    method SelectCategory(category: string)
      modifies this
      ensures activeCategory == category && isMenuOpen == old(isMenuOpen)
    {
      activeCategory := category;
    }

    /** The skills the grid shows for the active category. */
    function VisibleSkills(): (shown: seq<Skill>)
      reads this
      ensures activeCategory == AllLabel ==> shown == PortfolioData.Skills
      ensures activeCategory != AllLabel ==>
        && IsSubsequence(shown, PortfolioData.Skills)
        && (forall i :: 0 <= i < |shown| ==> CategoryLabel(shown[i].category) == activeCategory)
        && (forall s :: multiset(shown)[s] ==
              if CategoryLabel(s.category) == activeCategory then multiset(PortfolioData.Skills)[s] else 0)
    {
      FilteredSkills(PortfolioData.Skills, activeCategory)
    }
  }
}
