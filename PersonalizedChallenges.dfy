/**
 * Personalised challenge suggestions. Four keyword categories are tried in
 * a fixed order against the profile's interests and specialization; each
 * category that matches adds its fixed challenges, numbered by a running
 * counter. When fewer than three were added, two general challenges follow.
 * The progress of each suggestion is a random draw in 0..100.
 */
module PersonalizedChallenges {
  import opened Common
  import opened Models

  /** A challenge as the route returns it. */
  datatype Suggestion = Suggestion(id: string, title: string, description: string, category: string,
                                   difficulty: string, duration: string, xpReward: nat, progress: nat,
                                   resources: seq<string>)

  /** The five blocks of challenges, in the order the route tries them. */
  datatype Block = Programming | DataScience | Design | Language | General
  {
    function Rank(): nat
    {
      match this
      case Programming => 0
      case DataScience => 1
      case Design => 2
      case Language => 3
      case General => 4
    }
  }

  /** A fixed challenge the route can suggest: its block and everything but its number and progress. */
  datatype Template = Template(block: Block, prefix: string, title: string, description: string, category: string,
                               difficulty: string, duration: string, xpReward: nat, resources: seq<string>)

  const REST_API: Template :=
    Template(Programming, "prog", "Build a REST API with Python Flask",
             "Create a fully functional REST API with authentication and CRUD operations",
             "Programming", "Intermediate", "5 days", 200,
             ["https://flask.palletsprojects.com/", "https://www.restapitutorial.com/"])
  const COMPONENT_LIBRARY: Template :=
    Template(Programming, "prog", "Create a React Component Library",
             "Build a reusable component library with Storybook documentation",
             "Programming", "Advanced", "7 days", 300,
             ["https://reactjs.org/docs/components-and-props.html", "https://storybook.js.org/"])
  const PREDICTIVE_MODEL: Template :=
    Template(DataScience, "ds", "Build a Predictive Model",
             "Create a machine learning model to predict housing prices",
             "Data Science", "Intermediate", "5 days", 250,
             ["https://scikit-learn.org/", "https://pandas.pydata.org/"])
  const VISUALIZATION_PROJECT: Template :=
    Template(DataScience, "ds", "Data Visualization Project",
             "Create interactive visualizations for a complex dataset",
             "Data Science", "Beginner", "3 days", 150,
             ["https://matplotlib.org/", "https://seaborn.pydata.org/"])
  const REDESIGN_WEBSITE: Template :=
    Template(Design, "design", "Redesign a Popular Website",
             "Choose a website and create an improved UI/UX design",
             "Design", "Beginner", "3 days", 150,
             ["https://www.figma.com/", "https://www.interaction-design.org/literature/topics/ux-design"])
  const LANGUAGE_CHALLENGE: Template :=
    Template(Language, "lang", "30-Day Language Challenge",
             "Practice a new language for 30 minutes every day",
             "Language", "Beginner", "30 days", 300,
             ["https://www.duolingo.com/", "https://www.memrise.com/"])
  const NEW_SKILL: Template :=
    Template(General, "gen", "Learn a New Skill",
             "Spend 30 minutes each day learning something completely new",
             "Personal Development", "Beginner", "5 days", 100,
             ["https://www.coursera.org/", "https://www.khanacademy.org/"])
  const READING_HABIT: Template :=
    Template(General, "gen", "Daily Reading Habit",
             "Read for 20 minutes each day on any topic of interest",
             "Personal Development", "Beginner", "5 days", 80,
             ["https://www.goodreads.com/", "https://www.blinkist.com/"])

  const PROGRAMMING_KEYWORDS: seq<string> :=
    ["programming", "coding", "python", "javascript", "java", "web development",
     "software", "developer", "code", "html", "css", "react", "node", "flask"]
  const DATA_SCIENCE_KEYWORDS: seq<string> :=
    ["data science", "machine learning", "ai", "analytics", "data analysis",
     "statistics", "python", "r", "sql", "data visualization"]
  const DESIGN_KEYWORDS: seq<string> :=
    ["design", "ui", "ux", "graphic design", "web design", "user interface",
     "user experience", "figma", "adobe", "photoshop"]
  const LANGUAGE_KEYWORDS: seq<string> :=
    ["language", "english", "spanish", "french", "german", "japanese",
     "chinese", "learning", "linguistics"]

  const PROGRAMMING: seq<Template> := [REST_API, COMPONENT_LIBRARY]
  const DATA_SCIENCE: seq<Template> := [PREDICTIVE_MODEL, VISUALIZATION_PROJECT]
  const DESIGN: seq<Template> := [REDESIGN_WEBSITE]
  const LANGUAGE: seq<Template> := [LANGUAGE_CHALLENGE]
  const GENERAL: seq<Template> := [NEW_SKILL, READING_HABIT]

  /** The interests as matched: split at commas, each stripped and lower-cased; none for an empty text. */
  function InterestsList(interests: string): (r: seq<string>)
    ensures interests == "" ==> r == []
    ensures interests != "" ==> |r| == |Split(interests, ',')|
                                && forall i :: 0 <= i < |r| ==> r[i] == Lower(Strip(Split(interests, ',')[i]))
  {
    if interests == "" then []
    else
      var parts := Split(interests, ',');
      seq(|parts|, i requires 0 <= i < |parts| => Lower(Strip(parts[i])))
  }

  /** A category matches when one of its keywords is one of the interests or occurs in the specialization. */
  predicate Matches(keywords: seq<string>, interestsList: seq<string>, specialization: string)
  {
    exists k :: k in keywords && (k in interestsList || Contains(specialization, k))
  }

  /** `ts` appended to `chosen` when its category matched. */
  function Add(chosen: seq<Template>, matched: bool, ts: seq<Template>): seq<Template>
  {
    if matched then chosen + ts else chosen
  }

  /** The general pair appended when fewer than three challenges were chosen. */
  function Finish(chosen: seq<Template>): seq<Template>
  {
    if |chosen| < 3 then chosen + GENERAL else chosen
  }

  /** The templates chosen when the four categories match as given, in the order they are tried. */
  function Compose(programming: bool, dataScience: bool, design: bool, language: bool): seq<Template>
  {
    Finish(Add(Add(Add(Add([], programming, PROGRAMMING), dataScience, DATA_SCIENCE), design, DESIGN),
               language, LANGUAGE))
  }

  /** The templates chosen for a profile. */
  function Selected(interestsList: seq<string>, specialization: string): (r: seq<Template>)
  {
    Compose(Matches(PROGRAMMING_KEYWORDS, interestsList, specialization),
            Matches(DATA_SCIENCE_KEYWORDS, interestsList, specialization),
            Matches(DESIGN_KEYWORDS, interestsList, specialization),
            Matches(LANGUAGE_KEYWORDS, interestsList, specialization))
  }

  /** `random.randint(0, 100)` from a raw draw. */
  function Progress(draw: nat): (p: nat)
    ensures p <= 100
  {
    draw % 101
  }

  /**
   * Template `t` as the challenge numbered `n`; `roll(n)` is the raw random
   * draw made for that challenge.
   */
  function Make(t: Template, n: nat, roll: nat -> nat): Suggestion
  {
    Suggestion(t.prefix + "-" + NatToString(n), t.title, t.description, t.category, t.difficulty, t.duration,
               t.xpReward, Progress(roll(n)), t.resources)
  }

  /** The challenges of `ts`, numbered from `firstId` on. */
  function Numbered(ts: seq<Template>, firstId: nat, roll: nat -> nat): (r: seq<Suggestion>)
    ensures |r| == |ts|
    ensures forall i :: 0 <= i < |ts| ==> r[i] == Make(ts[i], firstId + i, roll)
  {
    seq(|ts|, i requires 0 <= i < |ts| => Make(ts[i], firstId + i, roll))
  }

  lemma NumberedAppend(a: seq<Template>, b: seq<Template>, roll: nat -> nat)
    ensures Numbered(a + b, 1, roll) == Numbered(a, 1, roll) + Numbered(b, |a| + 1, roll)
  {
    var l := Numbered(a + b, 1, roll);
    var r := Numbered(a, 1, roll) + Numbered(b, |a| + 1, roll);
    forall i | 0 <= i < |l| ensures l[i] == r[i] {
      if i < |a| {
        assert (a + b)[i] == a[i];
      } else {
        assert (a + b)[i] == b[i - |a|];
        assert r[i] == Numbered(b, |a| + 1, roll)[i - |a|];
      }
    }
  }

  /**
   * `generate_personalized_challenges` as the list it returns: two to six
   * challenges, the i-th numbered i + 1 after its category's prefix, each
   * with progress in 0..100.
   */
  function Personalized(interests: string, specialization: string, roll: nat -> nat): (r: seq<Suggestion>)
    ensures |r| == |Selected(InterestsList(interests), Lower(specialization))| && 2 <= |r| <= 6
    ensures forall i :: 0 <= i < |r| ==>
              r[i].progress <= 100
              && r[i].id == Selected(InterestsList(interests), Lower(specialization))[i].prefix + "-" + NatToString(i + 1)
  {
    SelectedBounds(InterestsList(interests), Lower(specialization));
    Numbered(Selected(InterestsList(interests), Lower(specialization)), 1, roll)
  }

  /**
   * `generate_personalized_challenges`: each matching category extends the
   * list and advances the counter by the number it added; the general pair
   * follows when fewer than three were added.
   */
  method GeneratePersonalizedChallenges(interests: string, specialization: string, roll: nat -> nat)
    returns (challenges: seq<Suggestion>)
    ensures challenges == Personalized(interests, specialization, roll)
  {
    var interestsList := InterestsList(interests);
    var spec := if specialization != "" then Lower(specialization) else "";
    var programming := Matches(PROGRAMMING_KEYWORDS, interestsList, spec);
    var dataScience := Matches(DATA_SCIENCE_KEYWORDS, interestsList, spec);
    var design := Matches(DESIGN_KEYWORDS, interestsList, spec);
    var language := Matches(LANGUAGE_KEYWORDS, interestsList, spec);
    challenges := Build(programming, dataScience, design, language, roll);
  }

  /**
   * The challenge list for the categories that matched, built block by
   * block with the running counter `challenge_id`.
   */
  method Build(programming: bool, dataScience: bool, design: bool, language: bool, roll: nat -> nat)
    returns (challenges: seq<Suggestion>)
    ensures challenges == Numbered(Compose(programming, dataScience, design, language), 1, roll)
  {
    ghost var chosen: seq<Template> := [];
    challenges := [];
    var challengeId := 1;
    if programming {
      challenges, chosen := Extend(challenges, challengeId, PROGRAMMING, roll, chosen);
      challengeId := challengeId + 2;
    }
    assert chosen == Add([], programming, PROGRAMMING);
    ghost var before := chosen;
    if dataScience {
      challenges, chosen := Extend(challenges, challengeId, DATA_SCIENCE, roll, chosen);
      challengeId := challengeId + 2;
    }
    assert chosen == Add(before, dataScience, DATA_SCIENCE);
    before := chosen;
    if design {
      challenges, chosen := Extend(challenges, challengeId, DESIGN, roll, chosen);
      challengeId := challengeId + 1;
    }
    assert chosen == Add(before, design, DESIGN);
    before := chosen;
    if language {
      challenges, chosen := Extend(challenges, challengeId, LANGUAGE, roll, chosen);
      challengeId := challengeId + 1;
    }
    assert chosen == Add(before, language, LANGUAGE);
    before := chosen;
    if |challenges| < 3 {
      challenges, chosen := Extend(challenges, challengeId, GENERAL, roll, chosen);
    }
    assert chosen == Finish(before);
  }

  /**
   * `challenges.extend([...])` for one category, numbered from the counter;
   * `chosen` records the templates added so far, and the counter always
   * numbers the next challenge.
   */
  method Extend(challenges: seq<Suggestion>, challengeId: nat, ts: seq<Template>, roll: nat -> nat,
                ghost chosen: seq<Template>) returns (challenges': seq<Suggestion>, ghost chosen': seq<Template>)
    requires challengeId == |challenges| + 1 && challenges == Numbered(chosen, 1, roll)
    ensures challenges' == challenges + Numbered(ts, challengeId, roll)
    ensures chosen' == chosen + ts && challenges' == Numbered(chosen', 1, roll)
    ensures challengeId + |ts| == |challenges'| + 1
  {
    NumberedAppend(chosen, ts, roll);
    challenges' := challenges + Numbered(ts, challengeId, roll);
    chosen' := chosen + ts;
  }

  /** Between two and six challenges, whatever the profile says. */
  lemma SelectedBounds(interestsList: seq<string>, specialization: string)
    ensures 2 <= |Selected(interestsList, specialization)| <= 6
  {
  }

  /** Categories appear in the order they are tried, the general ones last. */
  lemma CategoriesInOrder(programming: bool, dataScience: bool, design: bool, language: bool)
    ensures var ts := Compose(programming, dataScience, design, language);
            forall i, j :: 0 <= i < j < |ts| ==> ts[i].block.Rank() <= ts[j].block.Rank()
  {
  }

  /**
   * "python" is a keyword of both programming and data science: that
   * interest alone gives those four challenges and no general one.
   */
  lemma PythonAloneGivesFour()
    ensures Selected(["python"], "") == PROGRAMMING + DATA_SCIENCE
  {
    assert "python" in PROGRAMMING_KEYWORDS && "python" in ["python"];
    assert "python" in DATA_SCIENCE_KEYWORDS;
    assert !Matches(DESIGN_KEYWORDS, ["python"], "") by { NoMatchOnEmpty(DESIGN_KEYWORDS, ["python"]); }
    assert !Matches(LANGUAGE_KEYWORDS, ["python"], "") by { NoMatchOnEmpty(LANGUAGE_KEYWORDS, ["python"]); }
  }

  /** A category none of whose keywords is among the interests matches no empty specialization. */
  lemma NoMatchOnEmpty(keywords: seq<string>, interestsList: seq<string>)
    requires forall k :: k in keywords ==> |k| > 0 && k !in interestsList
    ensures !Matches(keywords, interestsList, "")
  {
  }

  /** The one-letter keyword "r" makes any specialization holding an 'r' a data-science match. */
  lemma LetterRMatchesDataScience(interestsList: seq<string>, specialization: string)
    requires 'r' in specialization
    ensures Matches(DATA_SCIENCE_KEYWORDS, interestsList, specialization)
    ensures forall t :: t in DATA_SCIENCE ==> t in Selected(interestsList, specialization)
  {
    var i :| 0 <= i < |specialization| && specialization[i] == 'r';
    assert specialization[i..i + 1] == "r";
    assert OccursAt(specialization, "r", i);
    assert Contains(specialization, "r");
    assert "r" in DATA_SCIENCE_KEYWORDS;
  }

  /** Without interests and specialization only the two general challenges are suggested. */
  lemma BlankProfileGetsGeneral()
    ensures Selected([], "") == GENERAL
  {
    assert !Matches(PROGRAMMING_KEYWORDS, [], "") by { NoMatchOnEmpty(PROGRAMMING_KEYWORDS, []); }
    assert !Matches(DATA_SCIENCE_KEYWORDS, [], "") by { NoMatchOnEmpty(DATA_SCIENCE_KEYWORDS, []); }
    assert !Matches(DESIGN_KEYWORDS, [], "") by { NoMatchOnEmpty(DESIGN_KEYWORDS, []); }
    assert !Matches(LANGUAGE_KEYWORDS, [], "") by { NoMatchOnEmpty(LANGUAGE_KEYWORDS, []); }
  }

  /** The route: no profile (404); otherwise the suggestions for its interests and specialization, empty when unset. */
  method Personal(db: Database, current: User, roll: nat -> nat) returns (r: Listing<Suggestion>)
    ensures current.id !in db.profiles ==> r == Refused(Reply(404, "Profile not found"))
    ensures current.id in db.profiles ==>
              r == Listed(Personalized(OrEmpty(db.profiles[current.id].interests),
                                       OrEmpty(db.profiles[current.id].specialization), roll))
  {
    if current.id !in db.profiles {
      return Refused(Reply(404, "Profile not found"));
    }
    var profile := db.profiles[current.id];
    var challenges := GeneratePersonalizedChallenges(OrEmpty(profile.interests), OrEmpty(profile.specialization), roll);
    r := Listed(challenges);
  }
}
