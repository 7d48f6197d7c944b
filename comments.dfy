/** src/components/CommentsSection.jsx: the comments and ratings under an
    anime's details, persisted under "comments-<animeId>". A submit needs a
    comment that is not blank and a rating; it puts the new comment first and
    saves the list. Each comment's rating is drawn as ten stars. */
module Comments {
  import opened Wrappers
  import opened Text
  import opened Catalog

  const StarCount: nat := 10

  /** The first `n` stars drawn for `score`: star `i` is filled when
      `score > i`. */
  function Filled(score: int, n: nat): (r: seq<bool>)
    ensures |r| == n
  {
    if n == 0 then [] else Filled(score, n - 1) + [score > n - 1]
  }

  /** `renderStars(score)`: the fill of each of the ten stars. */
  function Stars(score: int): (r: seq<bool>)
    ensures |r| == StarCount
  {
    Filled(score, StarCount)
  }

  /** How many stars are filled. */
  function CountFilled(s: seq<bool>): nat {
    if s == [] then 0 else CountFilled(s[..|s| - 1]) + (if s[|s| - 1] then 1 else 0)
  }

  /** The score, clamped to the stars there are. */
  function Clamp(score: int, n: nat): nat {
    if score < 0 then 0 else if score > n then n else score
  }

  /** Star `i` is filled exactly when the score exceeds `i`, so the filled
      stars come first, and as many are filled as the clamped score says. */
  lemma {:induction false} FilledMeans(score: int, n: nat)
    ensures forall i :: 0 <= i < n ==> Filled(score, n)[i] == (score > i)
    ensures CountFilled(Filled(score, n)) == Clamp(score, n)
  {
    if n > 0 {
      FilledMeans(score, n - 1);
      assert Filled(score, n)[..n - 1] == Filled(score, n - 1);
    }
  }

  /** Ten stars, the filled ones first: a rating of 0 to 10 fills exactly as
      many stars as it says, a higher one fills all ten, and a negative one
      none. */
  lemma StarsMeans(score: int)
    ensures |Stars(score)| == 10
    ensures forall i :: 0 <= i < 10 ==> Stars(score)[i] == (score > i)
    ensures forall i, j :: 0 <= i < j < 10 && Stars(score)[j] ==> Stars(score)[i]
    ensures 0 <= score <= 10 ==> CountFilled(Stars(score)) == score
  {
    FilledMeans(score, StarCount);
  }

  /** The list `JSON.parse(stored)` gives when something is stored under
      `key`. */
  function SavedComments(items: map<string, Stored>, key: string): (r: Option<seq<Comment>>)
    ensures r.Some? ==> key in items && items[key] == CommentsList(r.value)
    ensures key in items && items[key].CommentsList? ==> r.Some?
  {
    if key in items && items[key].CommentsList? then Some(items[key].comments) else None
  }

  /** What the load effect leaves on screen when it runs for `key` while
      `shown` is on screen: the stored list when there is one, and otherwise
      `shown` itself, since the effect sets the comments only when something
      is stored. */
  function Reloaded(items: map<string, Stored>, key: string, shown: seq<Comment>): seq<Comment> {
    SavedComments(items, key).GetOr(shown)
  }

  /** The evidently intended reload: the stored list, or no comments. */
  function ReloadedIntended(items: map<string, Stored>, key: string): seq<Comment> {
    SavedComments(items, key).GetOr([])
  }

  /** The store after a submit of `entry` while `shown` is on screen. */
  function Submitted(items: map<string, Stored>, key: string, entry: Comment, shown: seq<Comment>): map<string, Stored> {
    items[key := CommentsList([entry] + shown)]
  }

  /** As written: anime "1" has one saved comment and anime "2" none. Moving
      the section from "1" to "2" keeps the first anime's comment on screen,
      and the next submit saves it under "comments-2", a key it was never
      stored under. */
  lemma StaleCommentsSaved()
    ensures
      var a := Comment("Loved it", 9, "1/1/2025", 1);
      var e := Comment("Fine", 6, "2/1/2025", 2);
      var items := map[CommentsKey("1") := CommentsList([a])];
      var onFirst := Reloaded(items, CommentsKey("1"), []);
      var onSecond := Reloaded(items, CommentsKey("2"), onFirst);
      && onSecond == [a]
      && SavedComments(items, CommentsKey("2")) == None
      && SavedComments(Submitted(items, CommentsKey("2"), e, onSecond), CommentsKey("2")) == Some([e, a])
  {
    KeysDistinct("1", "2");
    var a := Comment("Loved it", 9, "1/1/2025", 1);
    var e := Comment("Fine", 6, "2/1/2025", 2);
    var items := map[CommentsKey("1") := CommentsList([a])];
    assert SavedComments(items, CommentsKey("1")) == Some([a]);
    assert SavedComments(items, CommentsKey("2")) == None;
    var onSecond := Reloaded(items, CommentsKey("2"), [a]);
    assert onSecond == [a];
    var after := Submitted(items, CommentsKey("2"), e, onSecond);
    assert after[CommentsKey("2")] == CommentsList([e, a]);
  }

  /** Corrected: after the intended reload for `key`, a submit saves under
      `key` the new comment followed by exactly what was saved under `key`
      before, whatever was on screen, and reads no other key. */
  lemma {:induction false} IntendedSubmitKeepsOwn(items: map<string, Stored>, key: string, entry: Comment, other: string)
    ensures SavedComments(Submitted(items, key, entry, ReloadedIntended(items, key)), key)
              == Some([entry] + SavedComments(items, key).GetOr([]))
    ensures other != key ==>
              SavedComments(Submitted(items, key, entry, ReloadedIntended(items, key)), other)
                == SavedComments(items, other)
  {
  }

  /** The section's state for one anime, and the store. */
  class CommentsSection {
    var comments: seq<Comment>
    var text: string
    var rating: int
    var submitting: bool
    var animeId: string
    const store: Store

    /** The comments shown are the comments persisted under the section's
        key. */
    predicate Synced()
      reads this, store
    {
      CommentsKey(animeId) in store.items && store.items[CommentsKey(animeId)] == CommentsList(comments)
    }

    /** The comments shown are those saved under the section's own key, or
        none when nothing is saved there. */
    predicate OwnComments()
      reads this, store
    {
      comments == SavedComments(store.items, CommentsKey(animeId)).GetOr([])
    }

    /** Mounting: empty state, then the effect that loads the saved comments
        when there are any. */
    constructor (animeId: string, store: Store)
      ensures this.animeId == animeId && this.store == store
      ensures text == "" && rating == 0 && !submitting
      ensures comments == SavedComments(store.items, CommentsKey(animeId)).GetOr([])
      ensures SavedComments(store.items, CommentsKey(animeId)).Some? ==> Synced()
      ensures OwnComments()
    {
      this.animeId := animeId;
      this.store := store;
      comments := [];
      text := "";
      rating := 0;
      submitting := false;
      new;
      var stored := SavedComments(store.items, CommentsKey(animeId));
      if stored.Some? {
        comments := stored.value;
      }
    }

    /** Typing in the comment box. */
    method SetText(value: string)
      modifies this
      ensures text == value && rating == old(rating) && comments == old(comments)
      ensures submitting == old(submitting) && animeId == old(animeId)
    {
      text := value;
    }

    /** Clicking star number `star`. */
    method SetRating(star: int)
      modifies this
      ensures rating == star && text == old(text) && comments == old(comments)
      ensures submitting == old(submitting) && animeId == old(animeId)
    {
      rating := star;
    }

    /** `handleSubmit` at clock `now` (milliseconds), rendered as `date`. A
        blank comment or a missing rating is refused and nothing changes;
        otherwise the new comment goes first, the list is saved under the
        section's key alone, and the form is reset. */
    method Submit(now: int, date: string) returns (accepted: bool)
      modifies this, store
      ensures accepted <==> !AllSpace(old(text)) && old(rating) != 0
      ensures !accepted ==>
        && comments == old(comments) && text == old(text) && rating == old(rating)
        && store.items == old(store.items) && submitting == old(submitting)
      ensures accepted ==>
        && comments == [Comment(old(text), old(rating), date, now)] + old(comments)
        && |comments| == |old(comments)| + 1 && comments[1..] == old(comments)
        && store.items == old(store.items)[CommentsKey(animeId) := CommentsList(comments)]
        && Synced()
        && text == "" && rating == 0 && !submitting
      ensures animeId == old(animeId)
      ensures old(OwnComments()) || accepted ==> OwnComments()
    {
      TrimEmpty(text);
      if Trim(text) == "" || rating == 0 {
        return false;
      }
      submitting := true;
      var newEntry := Comment(text, rating, date, now);
      var updated := [newEntry] + comments;
      comments := updated;
      store.SetItem(CommentsKey(animeId), CommentsList(updated));
      text := "";
      rating := 0;
      submitting := false;
      assert updated[1..] == old(comments);
      return true;
    }

    /** The section kept on screen while the page moves to anime `newId`: the
        key changes, and the load effect runs again. As written, it replaces
        the comments only when something is saved under the new key, so with
        nothing saved the previous anime's comments stay on screen. The
        section stays mounted across the move only when the new anime's
        details are fresh in the cache, since the loading skeleton then never
        renders. Text and rating are kept. */
    method ChangeAnime(newId: string)
      modifies this
      ensures animeId == newId && text == old(text) && rating == old(rating)
      ensures submitting == old(submitting)
      ensures newId == old(animeId) ==> comments == old(comments)
      ensures newId != old(animeId) ==>
        comments == Reloaded(store.items, CommentsKey(newId), old(comments))
      ensures newId != old(animeId) && SavedComments(store.items, CommentsKey(newId)).Some? ==> Synced()
      ensures SavedComments(store.items, CommentsKey(newId)).None? ==> comments == old(comments)
    {
      if newId == animeId {
        return;
      }
      animeId := newId;
      var stored := SavedComments(store.items, CommentsKey(animeId));
      if stored.Some? {
        comments := stored.value;
      }
    }

    /** The evidently intended move to anime `newId`: the comments become
        those saved under the new key, or none, so the section shows only its
        own anime's comments. */
    method ChangeAnimeIntended(newId: string)
      modifies this
      ensures animeId == newId && text == old(text) && rating == old(rating)
      ensures submitting == old(submitting)
      ensures comments == ReloadedIntended(store.items, CommentsKey(newId))
      ensures OwnComments()
    {
      animeId := newId;
      comments := SavedComments(store.items, CommentsKey(animeId)).GetOr([]);
    }
  }
}
