/** The two constant project tables shown by the Proof scene. */
module Projects {

  datatype Metric = Metric(value: string, caption: string)

  /** One project record; the optional expanded-view content is never set in
      either table and is not modelled. */
  datatype Project = Project(
    id: string,
    title: string,
    projectType: string,
    icon: string,
    description: string,
    accent: string,
    metrics: Metric)

  /** No two records of `ps` share an id. */
  ghost predicate DistinctIds(ps: seq<Project>) {
    forall i, j :: 0 <= i < j < |ps| ==> ps[i].id != ps[j].id
  }

  /** Some record of `ps` carries the id `id`. */
  ghost predicate HasId(ps: seq<Project>, id: string) {
    exists i :: 0 <= i < |ps| && ps[i].id == id
  }

  /** The table shown on the LOGIC track. */
  function LogicProjects(): (ps: seq<Project>)
    ensures |ps| == 5
    ensures DistinctIds(ps)
  {
    [ Project("samurai", "The Samurai", "LEGACY SYSTEM", "\U{1F6E1}\U{FE0F}",
              "Represents precision and stability. The core Python model.", "blue",
              Metric("99.9%", "Accuracy")),
      Project("assassin", "The Assassin", "NOVEL AGENT", "\U{2694}\U{FE0F}",
              "Represents speed and agility. Novel improvements over R.", "red",
              Metric("100x", "Faster")),
      Project("architect", "The Architect", "SYSTEM DESIGN", "\U{1F4D0}",
              "Scalable infrastructure for high-throughput simulations.", "indigo",
              Metric("10k+", "Concurrency")),
      Project("oracle", "The Oracle", "PREDICTIVE AI", "\U{1F52E}",
              "Forecasting outcomes with advanced heuristics.", "purple",
              Metric("85%", "Prediction")),
      Project("sentry", "The Sentry", "SECURITY OPS", "\U{1F441}\U{FE0F}",
              "Real-time monitoring and anomaly detection.", "emerald",
              Metric("0ms", "Breach")) ]
  }

  /** The table shown on the DESIGN track. */
  function DesignProjects(): (ps: seq<Project>)
    ensures |ps| == 5
    ensures DistinctIds(ps)
  {
    [ Project("portfolio-v1", "Portfolio V1", "UI EXPERIMENT", "\U{1F3A8}",
              "Exploration of glassmorphism and kinetic typography.", "pink",
              Metric("Awwwards", "Nominee")),
      Project("finance-dash", "Finance Dash", "UX CASE STUDY", "\U{1F4CA}",
              "Simplifying complex financial data for everyday users.", "orange",
              Metric("+40%", "Engagement")),
      Project("neon-city", "Neon City", "3D WEBGL", "\U{1F303}",
              "Immersive 3D environment using Three.js and React.", "cyan",
              Metric("60fps", "Performance")),
      Project("zen-mode", "Zen Mode", "MINIMALISM", "\U{1F9D8}",
              "Focus-centric productivity app design.", "teal",
              Metric("Top 10", "ProductHunt")),
      Project("retro-arcade", "Retro Arcade", "GAMIFICATION", "\U{1F579}\U{FE0F}",
              "8-bit inspired game interface for modern web.", "yellow",
              Metric("5k+", "Players")) ]
  }

  /** No id occurs in both tables. */
  lemma TablesDisjoint()
    ensures forall i, j :: 0 <= i < |LogicProjects()| && 0 <= j < |DesignProjects()| ==>
              LogicProjects()[i].id != DesignProjects()[j].id
  {
  }

  /** The two ids the methodology copy names belong to the LOGIC table only. */
  lemma SamuraiAndAssassinAreLogicOnly()
    ensures HasId(LogicProjects(), "samurai") && HasId(LogicProjects(), "assassin")
    ensures !HasId(DesignProjects(), "samurai") && !HasId(DesignProjects(), "assassin")
  {
    assert LogicProjects()[0].id == "samurai";
    assert LogicProjects()[1].id == "assassin";
  }
}
