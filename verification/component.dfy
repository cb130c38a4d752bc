/**
 * The state of the "Would You Use This?" component and its event handlers.
 * Each handler runs to completion before the next event, so each becomes one
 * method that replaces the fields it sets. Whatever the handlers read from
 * the clock arrives as a parameter.
 */
module Component {
  import opened Feed
  import opened Text

  class IdeaBoard {
    /** The feed, newest submission first. */
    var ideas: seq<Idea>
    /** The direction this session voted on each idea id, if it did. */
    var userVotes: map<int, Dir>
    /** Whether a user is signed in (`user` is not null). */
    var signedIn: bool
    /** The text in the submission box. */
    var newIdea: string
    /** The key of the selected time filter. */
    var timeFilter: FilterKey

    /** Votes are recorded only while a user is signed in; signing out discards them. */
    ghost predicate Valid()
      reads this
    {
      !signedIn ==> userVotes == map[]
    }

    /** The initial state: the given ideas, no votes, no user, an empty draft, 'all'. */
    constructor (initial: seq<Idea>)
      ensures Valid()
      ensures ideas == initial && userVotes == map[] && !signedIn
      ensures newIdea == "" && timeFilter == All
    {
      ideas := initial;
      userVotes := map[];
      signedIn := false;
      newIdea := "";
      timeFilter := All;
    }

    /** `handleSignIn`: a user is signed in and nothing else changes. */
    method SignIn()
      requires Valid()
      modifies this
      ensures Valid() && signedIn
      ensures ideas == old(ideas) && userVotes == old(userVotes)
      ensures newIdea == old(newIdea) && timeFilter == old(timeFilter)
      ensures !old(signedIn) ==> userVotes == map[]
    {
      signedIn := true;
    }

    /** `handleSignOut`: no user, and every recorded vote is forgotten; the ideas keep their counts. */
    method SignOut()
      requires Valid()
      modifies this
      ensures Valid() && !signedIn && userVotes == map[]
      ensures ideas == old(ideas)
      ensures newIdea == old(newIdea) && timeFilter == old(timeFilter)
    {
      signedIn := false;
      userVotes := map[];
    }

    /** The input's `onChange`: the draft becomes what was typed. */
    method EditDraft(text: string)
      requires Valid()
      modifies this
      ensures Valid() && newIdea == text
      ensures ideas == old(ideas) && userVotes == old(userVotes)
      ensures signedIn == old(signedIn) && timeFilter == old(timeFilter)
    {
      newIdea := text;
    }

    /** A filter button's `onClick`: the filter with that key is selected. */
    method SelectFilter(key: FilterKey)
      requires Valid()
      modifies this
      ensures Valid() && timeFilter == key
      ensures ideas == old(ideas) && userVotes == old(userVotes)
      ensures signedIn == old(signedIn) && newIdea == old(newIdea)
    {
      timeFilter := key;
    }

    /**
     * `handleSubmit`. With a blank draft or no user nothing changes.
     * Otherwise a new idea with the trimmed draft, no votes, id `clockId` and
     * creation time `clockCreated` (the two separate clock readings) goes in
     * front of the unchanged old list, and the draft is cleared.
     */
    method Submit(clockId: int, clockCreated: int)
      requires Valid()
      modifies this
      ensures Valid()
      ensures old(IsBlank(newIdea)) || !old(signedIn) ==>
        ideas == old(ideas) && newIdea == old(newIdea)
      ensures !old(IsBlank(newIdea)) && old(signedIn) ==>
        && |ideas| == old(|ideas|) + 1
        && ideas[0] == Idea(clockId, Trim(old(newIdea)), 0, 0, clockCreated)
        && ideas[1..] == old(ideas)
        && newIdea == ""
      ensures userVotes == old(userVotes) && signedIn == old(signedIn) && timeFilter == old(timeFilter)
    {
      var text := Trim(newIdea);
      TrimEmptyIffBlank(newIdea);
      if text == [] || !signedIn {
        return;
      }
      var idea := Idea(clockId, text, 0, 0, clockCreated);
      ideas := [idea] + ideas;
      newIdea := "";
    }

    /**
     * `handleVote`. With no user, or once this session has voted on the id,
     * nothing changes. Otherwise the direction is recorded for the id, every
     * other record is kept, and every idea with that id receives the vote.
     */
    method Vote(ideaId: int, dir: Dir)
      requires Valid()
      modifies this
      ensures Valid()
      ensures !old(signedIn) || ideaId in old(userVotes) ==>
        ideas == old(ideas) && userVotes == old(userVotes)
      ensures old(signedIn) && ideaId !in old(userVotes) ==>
        && userVotes == old(userVotes)[ideaId := dir]
        && ideas == ApplyVote(old(ideas), ideaId, dir)
      ensures signedIn == old(signedIn) && newIdea == old(newIdea) && timeFilter == old(timeFilter)
    {
      if !signedIn || ideaId in userVotes {
        return;
      }
      userVotes := userVotes[ideaId := dir];
      ideas := ApplyVote(ideas, ideaId, dir);
    }

    /** `filteredIdeas` for the current state at time `now`. */
    function Shown(now: int): (r: seq<Idea>)
      reads this
      ensures forall x :: multiset(r)[x] == if InWindow(timeFilter, now, x) then multiset(ideas)[x] else 0
      ensures SortedByScore(r)
      ensures forall k :: ScoreClass(r, k) == ScoreClass(Retained(ideas, timeFilter, Cutoff(ActiveFilter(timeFilter), now)), k)
    {
      FilteredIdeas(ideas, timeFilter, now)
    }
  }

  /**
   * One vote per idea, no takebacks: a second vote on the same id, in either
   * direction, leaves the votes and the ideas as the first vote left them.
   */
  method VoteTwice(board: IdeaBoard, ideaId: int, first: Dir, second: Dir)
    requires board.Valid()
    modifies board
    ensures board.Valid()
    ensures !old(board.signedIn) ==> board.ideas == old(board.ideas) && board.userVotes == old(board.userVotes)
    ensures old(board.signedIn) && ideaId !in old(board.userVotes) ==>
      && board.userVotes == old(board.userVotes)[ideaId := first]
      && board.ideas == ApplyVote(old(board.ideas), ideaId, first)
    ensures old(board.signedIn) && ideaId in old(board.userVotes) ==>
      board.ideas == old(board.ideas) && board.userVotes == old(board.userVotes)
  {
    board.Vote(ideaId, first);
    ghost var afterFirst, votesAfterFirst := board.ideas, board.userVotes;
    board.Vote(ideaId, second);
    assert board.ideas == afterFirst && board.userVotes == votesAfterFirst;
  }

  /**
   * The vote record lasts one sign-in: after signing out and in again the
   * same user can vote on the same id again, and the counters, which
   * signing out keeps, take the second vote on top of the first.
   */
  method RevoteAfterSignOut(board: IdeaBoard, ideaId: int, first: Dir, second: Dir)
    requires board.Valid() && board.signedIn && ideaId !in board.userVotes
    modifies board
    ensures board.Valid() && board.signedIn
    ensures board.userVotes == map[ideaId := second]
    ensures board.ideas == ApplyVote(ApplyVote(old(board.ideas), ideaId, first), ideaId, second)
  {
    board.Vote(ideaId, first);
    board.SignOut();
    board.SignIn();
    board.Vote(ideaId, second);
  }

  /**
   * A freshly posted idea is in the feed under every filter for a day after
   * its creation time.
   */
  lemma NewIdeaShown(ideas: seq<Idea>, idea: Idea, key: FilterKey, now: int)
    requires idea.createdAt <= now <= idea.createdAt + Day
    ensures idea in FilteredIdeas([idea] + ideas, key, now)
  {
    var r := FilteredIdeas([idea] + ideas, key, now);
    assert multiset([idea] + ideas)[idea] >= 1;
    assert multiset(r)[idea] >= 1;
  }
}
