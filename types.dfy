/**
 * The records and string-literal enumerations shared by the EcoTrack
 * components (src/types/index.ts). Every string-literal union becomes a
 * datatype with one constructor per literal, so "exactly one of" is the
 * datatype's own guarantee; optional fields become `Option`.
 */
module Types {

  datatype Option<T> = None | Some(value: T)

  /** `Activity.category`. */
  datatype Category = Transportation | Energy | Food | Waste | Digital

  /** The categories in the order the source lists them everywhere. */
  const AllCategories: seq<Category> := [Transportation, Energy, Food, Waste, Digital]

  /** The lower-case key the source uses for a category. */
  function CategoryKey(c: Category): string
  {
    match c
    case Transportation => "transportation"
    case Energy => "energy"
    case Food => "food"
    case Waste => "waste"
    case Digital => "digital"
  }

  /** The category whose key is `s`, if any. */
  function ParseCategory(s: string): (r: Option<Category>)
    ensures r.Some? ==> CategoryKey(r.value) == s
  {
    if s == "transportation" then Some(Transportation)
    else if s == "energy" then Some(Energy)
    else if s == "food" then Some(Food)
    else if s == "waste" then Some(Waste)
    else if s == "digital" then Some(Digital)
    else None
  }

  /** Every category is listed once, and its key parses back to it. */
  lemma CategoryKeysRoundTrip(c: Category)
    ensures ParseCategory(CategoryKey(c)) == Some(c)
    ensures c in AllCategories
    ensures |AllCategories| == 5
    ensures forall i, j :: 0 <= i < j < |AllCategories| ==> AllCategories[i] != AllCategories[j]
  {
  }

  /** `Activity.details`: every field is optional. */
  datatype ActivityDetails = ActivityDetails(
    distance: Option<string>,
    amount: Option<string>,
    location: Option<string>,
    origin: Option<string>,       // the source's `from`
    destination: Option<string>,  // the source's `to`
    description: Option<string>)

  /** Details with no field present, a valid value of the record. */
  const NoDetails: ActivityDetails := ActivityDetails(None, None, None, None, None, None)

  /** `Activity`: `activityType` is the source's `type` field. */
  datatype Activity = Activity(
    id: string,
    category: Category,
    activityType: string,
    emissions: real,
    timestamp: string,
    details: ActivityDetails)

  /** `Goal.type` and `Goal.status`. */
  datatype GoalType = Reduction | Increase
  datatype GoalStatus = InProgress | Completed | AtRisk

  datatype Goal = Goal(
    id: string,
    title: string,
    target: real,
    current: real,
    unit: string,
    goalType: GoalType,
    deadline: string,
    status: GoalStatus,
    progress: real)

  /** `Challenge.difficulty` and `Challenge.status`. */
  datatype Difficulty = Easy | Medium | Hard
  /** `Finished` is the source's `'completed'` (the name `Completed` is taken by `GoalStatus`). */
  datatype ChallengeStatus = Active | Upcoming | Finished

  /** The literal the source stores for a difficulty. */
  function DifficultyName(d: Difficulty): string
  {
    match d
    case Easy => "Easy"
    case Medium => "Medium"
    case Hard => "Hard"
  }

  /** A challenge pairs its `participants` count with the user's own `userParticipating` flag. */
  datatype Challenge = Challenge(
    id: string,
    title: string,
    description: string,
    participants: int,
    timeLeft: string,
    reward: int,
    difficulty: Difficulty,
    status: ChallengeStatus,
    userParticipating: bool)

  /** A post pairs its `likes` count with the user's own `userLiked` flag. */
  datatype Post = Post(
    id: string,
    author: string,
    avatar: string,
    time: string,
    content: string,
    likes: int,
    comments: int,
    image: bool,
    userLiked: bool)

  /** The single user record (`UserInput`). */
  datatype User = User(
    id: string,
    name: string,
    email: string,
    location: string,
    totalPoints: int,
    currentStreak: int,
    badges: seq<string>,
    monthlyGoal: real,
    currentEmissions: real,
    joinDate: string)
}
