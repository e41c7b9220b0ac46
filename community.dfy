/**
 * The community hub (src/components/Community.tsx): joining and leaving
 * challenges, liking posts, and the difficulty badge and button captions.
 * The two state lists live in `CommunityState`; the per-entry `map` updates are
 * pure functions over the lists.
 */
module Community {
  import opened Types

  /** `challenge.userParticipating ? participants - 1 : participants + 1` together with the flag flip. */
  function ToggleParticipation(c: Challenge): (r: Challenge)
    ensures r.userParticipating == !c.userParticipating
    ensures c.userParticipating ==> r.participants == c.participants - 1
    ensures !c.userParticipating ==> r.participants == c.participants + 1
    ensures r.(userParticipating := c.userParticipating, participants := c.participants) == c
  {
    c.(userParticipating := !c.userParticipating,
       participants := if c.userParticipating then c.participants - 1 else c.participants + 1)
  }

  /** The list `joinChallenge(id)` stores: every challenge with that id toggled, the rest as they were. */
  function WithChallengeToggled(cs: seq<Challenge>, id: string): (r: seq<Challenge>)
    ensures |r| == |cs|
    ensures forall i :: 0 <= i < |cs| && cs[i].id != id ==> r[i] == cs[i]
    ensures forall i :: 0 <= i < |cs| && cs[i].id == id ==> r[i] == ToggleParticipation(cs[i])
  {
    seq(|cs|, i requires 0 <= i < |cs| => if cs[i].id == id then ToggleParticipation(cs[i]) else cs[i])
  }

  /** The participants other than the user: what joining or leaving never changes. */
  function OthersParticipating(c: Challenge): int
  {
    c.participants - (if c.userParticipating then 1 else 0)
  }

  /** Toggling twice restores the challenge, and the others' count is kept. */
  lemma ToggleParticipationProperties(c: Challenge)
    ensures ToggleParticipation(ToggleParticipation(c)) == c
    ensures OthersParticipating(ToggleParticipation(c)) == OthersParticipating(c)
    ensures ToggleParticipation(c).id == c.id
  {
  }

  /** Joining twice with the same id restores the original list. */
  lemma WithChallengeToggledTwice(cs: seq<Challenge>, id: string)
    ensures WithChallengeToggled(WithChallengeToggled(cs, id), id) == cs
  {
    var once := WithChallengeToggled(cs, id);
    var twice := WithChallengeToggled(once, id);
    forall i | 0 <= i < |cs|
      ensures twice[i] == cs[i]
    {
      ToggleParticipationProperties(cs[i]);
    }
  }

  /** An id no challenge carries leaves the list unchanged. */
  lemma WithChallengeToggledNoMatch(cs: seq<Challenge>, id: string)
    requires forall i :: 0 <= i < |cs| ==> cs[i].id != id
    ensures WithChallengeToggled(cs, id) == cs
  {
  }

  /** Joining keeps every challenge's id and the number of other participants. */
  lemma WithChallengeToggledKeepsOthers(cs: seq<Challenge>, id: string, i: int)
    requires 0 <= i < |cs|
    ensures WithChallengeToggled(cs, id)[i].id == cs[i].id
    ensures OthersParticipating(WithChallengeToggled(cs, id)[i]) == OthersParticipating(cs[i])
  {
    ToggleParticipationProperties(cs[i]);
  }

  /** Counts agree with the flags: no negative count, and the user counts themself. */
  predicate ChallengeCountsConsistent(cs: seq<Challenge>)
  {
    forall i :: 0 <= i < |cs| ==> cs[i].participants >= (if cs[i].userParticipating then 1 else 0)
  }

  /** Joining and leaving keep the counts consistent with the flags. */
  lemma WithChallengeToggledPreservesCounts(cs: seq<Challenge>, id: string)
    requires ChallengeCountsConsistent(cs)
    ensures ChallengeCountsConsistent(WithChallengeToggled(cs, id))
  {
  }

  /** `post.userLiked ? likes - 1 : likes + 1` together with the flag flip. */
  function ToggleLiked(p: Post): (r: Post)
    ensures r.userLiked == !p.userLiked
    ensures p.userLiked ==> r.likes == p.likes - 1
    ensures !p.userLiked ==> r.likes == p.likes + 1
    ensures r.(userLiked := p.userLiked, likes := p.likes) == p
  {
    p.(userLiked := !p.userLiked, likes := if p.userLiked then p.likes - 1 else p.likes + 1)
  }

  /** The list `toggleLike(id)` stores: every post with that id toggled, the rest as they were. */
  function WithLikeToggled(ps: seq<Post>, id: string): (r: seq<Post>)
    ensures |r| == |ps|
    ensures forall i :: 0 <= i < |ps| && ps[i].id != id ==> r[i] == ps[i]
    ensures forall i :: 0 <= i < |ps| && ps[i].id == id ==> r[i] == ToggleLiked(ps[i])
  {
    seq(|ps|, i requires 0 <= i < |ps| => if ps[i].id == id then ToggleLiked(ps[i]) else ps[i])
  }

  /** The likes from other users. */
  function OthersLiking(p: Post): int
  {
    p.likes - (if p.userLiked then 1 else 0)
  }

  /** Liking twice restores the post, and the other users' likes are kept. */
  lemma ToggleLikedProperties(p: Post)
    ensures ToggleLiked(ToggleLiked(p)) == p
    ensures OthersLiking(ToggleLiked(p)) == OthersLiking(p)
    ensures ToggleLiked(p).id == p.id
  {
  }

  /** Toggling a like twice restores the feed. */
  lemma WithLikeToggledTwice(ps: seq<Post>, id: string)
    ensures WithLikeToggled(WithLikeToggled(ps, id), id) == ps
  {
    var once := WithLikeToggled(ps, id);
    var twice := WithLikeToggled(once, id);
    forall i | 0 <= i < |ps|
      ensures twice[i] == ps[i]
    {
      ToggleLikedProperties(ps[i]);
    }
  }

  /** An id no post carries leaves the feed unchanged. */
  lemma WithLikeToggledNoMatch(ps: seq<Post>, id: string)
    requires forall i :: 0 <= i < |ps| ==> ps[i].id != id
    ensures WithLikeToggled(ps, id) == ps
  {
  }

  /** Liking keeps every post's id and the other users' likes. */
  lemma WithLikeToggledKeepsOthers(ps: seq<Post>, id: string, i: int)
    requires 0 <= i < |ps|
    ensures WithLikeToggled(ps, id)[i].id == ps[i].id
    ensures OthersLiking(WithLikeToggled(ps, id)[i]) == OthersLiking(ps[i])
  {
    ToggleLikedProperties(ps[i]);
  }

  /** The colour pair of a difficulty badge. */
  datatype BadgeColour = GreenBadge | YellowBadge | RedBadge | GrayBadge

  /** `getDifficultyColor`: a switch on the difficulty text with a gray default. */
  function GetDifficultyColor(difficulty: string): (r: BadgeColour)
    ensures r == GreenBadge <==> difficulty == "Easy"
    ensures r == YellowBadge <==> difficulty == "Medium"
    ensures r == RedBadge <==> difficulty == "Hard"
    ensures r == GrayBadge <==> difficulty !in {"Easy", "Medium", "Hard"}
  {
    if difficulty == "Easy" then GreenBadge
    else if difficulty == "Medium" then YellowBadge
    else if difficulty == "Hard" then RedBadge
    else GrayBadge
  }

  /** A difficulty the type allows never falls through to gray. */
  lemma DifficultyNeverGray(d: Difficulty)
    ensures GetDifficultyColor(DifficultyName(d)) != GrayBadge
    ensures GetDifficultyColor(DifficultyName(d)) == RedBadge <==> d == Hard
  {
  }

  /** The caption of a challenge's button. */
  function ButtonLabel(c: Challenge): (r: string)
    ensures r == "Leave Challenge" <==> c.userParticipating
    ensures r == "Join Challenge" <==> !c.userParticipating && c.status == Active
    ensures r == "Register Interest" <==> !c.userParticipating && c.status != Active
  {
    if c.userParticipating then "Leave Challenge"
    else if c.status == Active then "Join Challenge"
    else "Register Interest"
  }

  datatype ButtonStyle = RedButton | GreenButton

  /** The button is red while the user takes part. */
  function ButtonStyleOf(c: Challenge): (r: ButtonStyle)
    ensures r == RedButton <==> c.userParticipating
  {
    if c.userParticipating then RedButton else GreenButton
  }

  /** After pressing the button of a challenge the user was not in, it reads "Leave Challenge". */
  lemma PressingJoinOffersLeave(c: Challenge)
    ensures !c.userParticipating ==> ButtonLabel(ToggleParticipation(c)) == "Leave Challenge"
    ensures c.userParticipating ==> ButtonLabel(ToggleParticipation(c)) != "Leave Challenge"
  {
  }

  datatype CommunityTab = LeaderboardTab | ChallengesTab | FeedTab

  /** The challenges the hub starts with. */
  const DefaultChallenges: seq<Challenge> := [
    Challenge("1", "Car-Free Week Challenge", "Use only public transport, cycling, or walking for 7 days",
      234, "5 days left", 500, Medium, Active, false),
    Challenge("2", "Zero Waste Weekend", "Generate zero waste during the weekend",
      156, "2 days left", 300, Hard, Active, true),
    Challenge("3", "Plant-Based Month", "Eat only plant-based meals for 30 days",
      89, "Starting soon", 800, Hard, Upcoming, false)]

  /** The posts the feed starts with. */
  const DefaultPosts: seq<Post> := [
    Post("1", "Emma Watson", "EW", "2 hours ago",
      "Just completed my first week of cycling to work! Saved 15kg CO₂ and feeling great! \U{1F6B4}‍♀️\U{1F49A}",
      24, 8, true, false),
    Post("2", "Green Living Tips", "GL", "4 hours ago",
      "Did you know? Switching to LED bulbs can reduce your home energy consumption by up to 75%! \U{1F4A1} What energy-saving tips do you have?",
      42, 15, false, true),
    Post("3", "Mike Johnson", "MJ", "6 hours ago",
      "Meal prep Sunday with locally sourced vegetables! \U{1F96C}\U{1F955} Reducing food miles while eating healthy. Anyone else doing local food challenges?",
      18, 6, true, false)]

  /** Counts agree with the flags on every post. */
  predicate LikeCountsConsistent(ps: seq<Post>)
  {
    forall i :: 0 <= i < |ps| ==> ps[i].likes >= (if ps[i].userLiked then 1 else 0)
  }

  /** Liking and unliking keep the counts consistent with the flags. */
  lemma WithLikeToggledPreservesCounts(ps: seq<Post>, id: string)
    requires LikeCountsConsistent(ps)
    ensures LikeCountsConsistent(WithLikeToggled(ps, id))
  {
  }

  /** The component's state: the selected tab and the two stored lists. */
  class CommunityState {
    var activeTab: CommunityTab
    var challenges: seq<Challenge>
    var posts: seq<Post>

    /** Counts agree with the flags in both lists. */
    ghost predicate Valid()
      reads this
    {
      ChallengeCountsConsistent(challenges) && LikeCountsConsistent(posts)
    }

    /** The initial state: the leaderboard tab and the seeded lists. */
    constructor()
      ensures activeTab == LeaderboardTab
      ensures challenges == DefaultChallenges && posts == DefaultPosts
      ensures Valid()
    {
      activeTab := LeaderboardTab;
      challenges := DefaultChallenges;
      posts := DefaultPosts;
    }

    /** `setActiveTab`. */
    method SelectTab(tab: CommunityTab)
      modifies this
      ensures activeTab == tab
      ensures challenges == old(challenges) && posts == old(posts)
    {
      activeTab := tab;
    }

    /** `joinChallenge(challengeId)`: only the challenge list changes. */
    method JoinChallenge(challengeId: string)
      modifies this
      ensures challenges == WithChallengeToggled(old(challenges), challengeId)
      ensures posts == old(posts) && activeTab == old(activeTab)
      ensures old(Valid()) ==> Valid()
    {
      if Valid() {
        WithChallengeToggledPreservesCounts(challenges, challengeId);
      }
      challenges := WithChallengeToggled(challenges, challengeId);
    }

    /** `toggleLike(postId)`: only the post list changes. */
    method ToggleLike(postId: string)
      modifies this
      ensures posts == WithLikeToggled(old(posts), postId)
      ensures challenges == old(challenges) && activeTab == old(activeTab)
      ensures old(Valid()) ==> Valid()
    {
      if Valid() {
        WithLikeToggledPreservesCounts(posts, postId);
      }
      posts := WithLikeToggled(posts, postId);
    }
  }
}
