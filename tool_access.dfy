/** The tool catalogue and who sees what: each tool belongs to one business
    area and lists the user profiles allowed to open it; the dashboard shows
    the registry tools of the selected area (or of every area) that the
    signed-in profile is allowed to open, in registry order. */
module ToolAccess {

  datatype UserProfile = Operator | Technician | Quality | Engineering | Manager | Admin

  datatype BusinessUnit = WashingMachine | QualityAssurance | Refrigeration | Manufacturing | EngineeringUnit

  datatype BusinessArea = Plm | Qms | Mes | Bi | Sim | Rnd

  datatype ToolCategory = Production | QualityCategory | EngineeringCategory | BiCategory | Design | Analytics

  datatype Tool = Tool(
    id: string,
    name: string,
    category: ToolCategory,
    area: BusinessArea,
    businessUnits: seq<BusinessUnit>,
    allowedProfiles: seq<UserProfile>)

  /** The area selector: every area, or one of them. */
  datatype AreaFilter = All | Only(area: BusinessArea)

  predicate AreaMatch(t: Tool, f: AreaFilter)
  {
    f.All? || t.area == f.area
  }

  /** The dashboard's filter predicate: the area matches and the profile is
      among the tool's allowed profiles. */
  predicate Visible(t: Tool, f: AreaFilter, p: UserProfile): (v: bool)
    ensures v ==> p in t.allowedProfiles
    ensures f.All? ==> (v <==> p in t.allowedProfiles)
    ensures f.Only? && t.area != f.area ==> !v
  {
    AreaMatch(t, f) && p in t.allowedProfiles
  }

  /** `TOOLS_REGISTRY.filter(...)`: the visible tools, in registry order. */
  function FilteredTools(registry: seq<Tool>, f: AreaFilter, p: UserProfile): (r: seq<Tool>)
    ensures |r| <= |registry|
  {
    if registry == [] then []
    else
      var rest := FilteredTools(registry[1..], f, p);
      if Visible(registry[0], f, p) then [registry[0]] + rest else rest
  }

  /** A tool is shown exactly when it is in the registry and passes the
      filter predicate. */
  lemma {:induction false} FilteredMembership(registry: seq<Tool>, f: AreaFilter, p: UserProfile, t: Tool)
    ensures t in FilteredTools(registry, f, p) <==> t in registry && Visible(t, f, p)
  {
    if registry != [] {
      FilteredMembership(registry[1..], f, p, t);
      assert t in registry <==> t == registry[0] || t in registry[1..] by {
        assert registry == [registry[0]] + registry[1..];
      }
    }
  }

  /** One step of the filter over a registry with a known first tool. */
  lemma FilteredCons(t: Tool, rest: seq<Tool>, f: AreaFilter, p: UserProfile)
    ensures FilteredTools([t] + rest, f, p)
         == (if Visible(t, f, p) then [t] else []) + FilteredTools(rest, f, p)
  {
    assert ([t] + rest)[1..] == rest;
  }

  /** `a` is `b` with some elements dropped, the others kept in order. */
  predicate IsSubsequence(a: seq<Tool>, b: seq<Tool>)
    decreases |b|
  {
    a == [] || (b != [] && ((a[0] == b[0] && IsSubsequence(a[1..], b[1..])) || IsSubsequence(a, b[1..])))
  }

  /** The filter keeps registry order: its result is a subsequence of the
      registry. */
  lemma {:induction false} FilteredIsSubsequence(registry: seq<Tool>, f: AreaFilter, p: UserProfile)
    ensures IsSubsequence(FilteredTools(registry, f, p), registry)
  {
    if registry != [] {
      FilteredIsSubsequence(registry[1..], f, p);
    }
  }

  /** Selecting one area filters the all-areas result further; so the tools
      shown for one area are a subsequence of those shown for every area. */
  lemma {:induction false} AreaRefinesAll(registry: seq<Tool>, a: BusinessArea, p: UserProfile)
    ensures FilteredTools(registry, Only(a), p) == FilteredTools(FilteredTools(registry, All, p), Only(a), p)
    ensures IsSubsequence(FilteredTools(registry, Only(a), p), FilteredTools(registry, All, p))
  {
    if registry != [] {
      AreaRefinesAll(registry[1..], a, p);
    }
    FilteredIsSubsequence(FilteredTools(registry, All, p), Only(a), p);
  }

  /** The profile rule cannot be bypassed by any choice of area. */
  lemma NeverShownWithoutProfile(registry: seq<Tool>, f: AreaFilter, p: UserProfile, t: Tool)
    requires p !in t.allowedProfiles
    ensures t !in FilteredTools(registry, f, p)
  {
    FilteredMembership(registry, f, p, t);
  }

  /** With every area selected the result is exactly the registry tools
      that allow the profile. */
  lemma AllAreasIsProfileRule(registry: seq<Tool>, p: UserProfile, t: Tool)
    ensures t in FilteredTools(registry, All, p) <==> t in registry && p in t.allowedProfiles
  {
    FilteredMembership(registry, All, p, t);
  }

  const CepStats: Tool := Tool("cep-stats", "CEP - Controle Estatístico", QualityCategory, Qms,
    [WashingMachine, Refrigeration, QualityAssurance], [Operator, Quality, Engineering, Manager])
  const IndustrialBi: Tool := Tool("industrial-bi", "Industrial BI Dashboard", BiCategory, Bi,
    [WashingMachine, Refrigeration, Manufacturing], [Manager, Admin, Engineering])
  const FmeaDashboard: Tool := Tool("fmea-dashboard", "Análise de FMEA", QualityCategory, Qms,
    [EngineeringUnit, QualityAssurance], [Engineering, Quality, Admin])
  const ParetoDashboard: Tool := Tool("pareto-dashboard", "Diagrama de Pareto", QualityCategory, Qms,
    [QualityAssurance, Manufacturing], [Quality, Manager, Admin])
  const SwotDashboard: Tool := Tool("swot-dashboard", "Análise SWOT", Analytics, Bi,
    [EngineeringUnit, Manufacturing], [Manager, Engineering, Admin])
  const FiveSDashboard: Tool := Tool("5s-dashboard", "Metodologia 5S", Production, Mes,
    [Manufacturing, WashingMachine, Refrigeration], [Operator, Technician, Quality, Admin])

  /** `TOOLS_REGISTRY`, without icons and descriptions. */
  const Registry: seq<Tool> := [CepStats, IndustrialBi, FmeaDashboard, ParetoDashboard, SwotDashboard, FiveSDashboard]

  /** An administrator sees every registry tool except the statistics
      module, which does not list ADMIN. */
  lemma AdminCatalogue()
    ensures FilteredTools(Registry, All, Admin)
         == [IndustrialBi, FmeaDashboard, ParetoDashboard, SwotDashboard, FiveSDashboard]
    ensures forall f :: CepStats !in FilteredTools(Registry, f, Admin)
  {
    var tail := [FiveSDashboard];
    FilteredCons(FiveSDashboard, [], All, Admin);
    FilteredCons(SwotDashboard, tail, All, Admin);
    tail := [SwotDashboard] + tail;
    FilteredCons(ParetoDashboard, tail, All, Admin);
    tail := [ParetoDashboard] + tail;
    FilteredCons(FmeaDashboard, tail, All, Admin);
    tail := [FmeaDashboard] + tail;
    FilteredCons(IndustrialBi, tail, All, Admin);
    tail := [IndustrialBi] + tail;
    FilteredCons(CepStats, tail, All, Admin);
    assert Registry == [CepStats] + tail;
    forall f
      ensures CepStats !in FilteredTools(Registry, f, Admin)
    {
      NeverShownWithoutProfile(Registry, f, Admin, CepStats);
    }
  }

  /** An operator looking at the quality area sees only the statistics
      module. */
  lemma OperatorQualityArea()
    ensures FilteredTools(Registry, Only(Qms), Operator) == [CepStats]
  {
    var f := Only(Qms);
    var tail := [FiveSDashboard];
    FilteredCons(FiveSDashboard, [], f, Operator);
    FilteredCons(SwotDashboard, tail, f, Operator);
    tail := [SwotDashboard] + tail;
    FilteredCons(ParetoDashboard, tail, f, Operator);
    tail := [ParetoDashboard] + tail;
    FilteredCons(FmeaDashboard, tail, f, Operator);
    tail := [FmeaDashboard] + tail;
    FilteredCons(IndustrialBi, tail, f, Operator);
    tail := [IndustrialBi] + tail;
    FilteredCons(CepStats, tail, f, Operator);
    assert Registry == [CepStats] + tail;
  }
}
