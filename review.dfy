/** models/review.py: a `Review` whose author and place must exist and whose rating lies in 1..5. */
module ReviewModel {
  import opened Wrappers
  import opened Json

  datatype ReviewFields = ReviewFields(commentorUserId: string, placeId: string, rating: int, feedback: string)

  /** What `__init__` sets before it looks at its keyword arguments. */
  const Blank := ReviewFields("", "", 0, "")

  /** The stores the setters consult: the keys of the user store and of the place store. */
  datatype Known = Known(userIds: set<string>, placeIds: set<string>)

  predicate IsReviewKey(k: string) {
    k == "commentor_user_id" || k == "place_id" || k == "rating" || k == "feedback"
  }

  predicate IsValidRating(v: Value) {
    v.Int? && 1 <= v.i <= 5
  }

  /** Whether the setter for `k` takes `v`. */
  predicate Accepts(k: string, v: Value, known: Known) {
    if k == "commentor_user_id" then v.Str? && v.s in known.userIds
    else if k == "place_id" then v.Str? && v.s in known.placeIds
    else if k == "rating" then IsValidRating(v)
    else if k == "feedback" then v.Str?
    else true
  }

  function Assign(f: ReviewFields, k: string, v: Value, known: Known): (r: Option<ReviewFields>)
    requires IsReviewKey(k)
  {
    if !Accepts(k, v, known) then None
    else if k == "commentor_user_id" then Some(f.(commentorUserId := v.s))
    else if k == "place_id" then Some(f.(placeId := v.s))
    else if k == "rating" then Some(f.(rating := v.i))
    else Some(f.(feedback := v.s))
  }

  /** The loop of `__init__` in the caller's order: the first setter that raises aborts construction. */
  function Construct(f: ReviewFields, kwargs: seq<(string, Value)>, known: Known): Option<ReviewFields>
    decreases |kwargs|
  {
    if kwargs == [] then Some(f)
    else if !IsReviewKey(kwargs[0].0) then Construct(f, kwargs[1..], known)
    else match Assign(f, kwargs[0].0, kwargs[0].1, known)
      case None => None
      case Some(g) => Construct(g, kwargs[1..], known)
  }

  lemma {:induction false} ConstructFails(f: ReviewFields, kwargs: seq<(string, Value)>, known: Known)
    ensures Construct(f, kwargs, known).None? <==>
      exists i :: 0 <= i < |kwargs| && IsReviewKey(kwargs[i].0) && !Accepts(kwargs[i].0, kwargs[i].1, known)
    decreases |kwargs|
  {
    if kwargs != [] {
      var (k, v) := kwargs[0];
      var rest := kwargs[1..];
      assert forall i :: 0 < i < |kwargs| ==> kwargs[i] == rest[i - 1];
      if !IsReviewKey(k) {
        ConstructFails(f, rest, known);
      } else if Accepts(k, v, known) {
        ConstructFails(Assign(f, k, v, known).value, rest, known);
      }
    }
  }

  lemma {:induction false} ConstructTakesLast(f: ReviewFields, kwargs: seq<(string, Value)>, known: Known)
    requires Construct(f, kwargs, known).Some?
    ensures var r := Construct(f, kwargs, known).value;
      && Str(r.commentorUserId) == LastValue(kwargs, "commentor_user_id", Str(f.commentorUserId))
      && Str(r.placeId) == LastValue(kwargs, "place_id", Str(f.placeId))
      && Int(r.rating) == LastValue(kwargs, "rating", Int(f.rating))
      && Str(r.feedback) == LastValue(kwargs, "feedback", Str(f.feedback))
    decreases |kwargs|
  {
    if kwargs != [] {
      var (k, v) := kwargs[0];
      if !IsReviewKey(k) {
        ConstructTakesLast(f, kwargs[1..], known);
      } else {
        ConstructTakesLast(Assign(f, k, v, known).value, kwargs[1..], known);
      }
    }
  }

  /** The four arguments `create_review` passes (app.py:912-917), in its order. */
  function PostArgs(commentor: Value, placeId: Value, rating: Value, feedback: Value): seq<(string, Value)> {
    [("commentor_user_id", commentor), ("place_id", placeId), ("rating", rating), ("feedback", feedback)]
  }

  /** With all four fields given, construction succeeds exactly when every setter accepts. */
  lemma ConstructFromAll(commentor: Value, placeId: Value, rating: Value, feedback: Value, known: Known)
    ensures Construct(Blank, PostArgs(commentor, placeId, rating, feedback), known) ==
      if Accepts("commentor_user_id", commentor, known) && Accepts("place_id", placeId, known)
        && IsValidRating(rating) && feedback.Str?
      then Some(ReviewFields(commentor.s, placeId.s, rating.i, feedback.s)) else None
  {
    var args := PostArgs(commentor, placeId, rating, feedback);
    var a3 := [("feedback", feedback)];
    var a2 := [("rating", rating)] + a3;
    var a1 := [("place_id", placeId)] + a2;
    assert args[0].0 == "commentor_user_id" && args[1..] == a1;
    if Accepts("commentor_user_id", commentor, known) {
      var f1 := Blank.(commentorUserId := commentor.s);
      assert Construct(Blank, args, known) == Construct(f1, a1, known);
      assert a1[0].0 == "place_id" && a1[1..] == a2;
      if Accepts("place_id", placeId, known) {
        var f2 := f1.(placeId := placeId.s);
        assert Construct(f1, a1, known) == Construct(f2, a2, known);
        assert a2[0].0 == "rating" && a2[1..] == a3;
        if IsValidRating(rating) {
          var f3 := f2.(rating := rating.i);
          assert Construct(f2, a2, known) == Construct(f3, a3, known);
          assert a3[0].0 == "feedback" && a3[1..] == [];
          if feedback.Str? {
            assert Construct(f3, a3, known) == Construct(f3.(feedback := feedback.s), [], known);
          }
        }
      }
    }
  }

  /** A constructed review names a stored user (or none), a stored place (or none), and rates 1..5 (or 0). */
  ghost predicate Sound(f: ReviewFields, known: Known) {
    && (f.commentorUserId == "" || f.commentorUserId in known.userIds)
    && (f.placeId == "" || f.placeId in known.placeIds)
    && (f.rating == 0 || 1 <= f.rating <= 5)
  }

  lemma {:induction false} ConstructKeepsSound(f: ReviewFields, kwargs: seq<(string, Value)>, known: Known)
    requires Sound(f, known)
    ensures Construct(f, kwargs, known).Some? ==> Sound(Construct(f, kwargs, known).value, known)
    decreases |kwargs|
  {
    if kwargs != [] {
      var (k, v) := kwargs[0];
      if !IsReviewKey(k) {
        ConstructKeepsSound(f, kwargs[1..], known);
      } else if Accepts(k, v, known) {
        ConstructKeepsSound(Assign(f, k, v, known).value, kwargs[1..], known);
      }
    }
  }

  class Review {
    const id: string
    const createdAt: Timestamp
    var updatedAt: Timestamp
    var commentorUserId: string
    var placeId: string
    var rating: int
    var feedback: string

    function Fields(): ReviewFields
      reads this
    {
      ReviewFields(commentorUserId, placeId, rating, feedback)
    }

    /** The defaults: two separate clock readings, empty ids and feedback, rating 0. */
    constructor (id: string, created: Timestamp, updated: Timestamp)
      ensures this.id == id && createdAt == created && updatedAt == updated
      ensures Fields() == Blank
    {
      this.id := id;
      createdAt := created;
      updatedAt := updated;
      commentorUserId, placeId, rating, feedback := "", "", 0, "";
    }

    method SetFeedback(value: Value) returns (ok: bool)
      modifies this`feedback
      ensures ok == value.Str?
      ensures feedback == if ok then value.s else old(feedback)
    {
      ok := value.Str?;
      if ok {
        feedback := value.s;
      }
    }

    method SetRating(value: Value) returns (ok: bool)
      modifies this`rating
      ensures ok == (value.Int? && 1 <= value.i <= 5)
      ensures rating == if ok then value.i else old(rating)
    {
      ok := IsValidRating(value);
      if ok {
        rating := value.i;
      }
    }

    /** The id must be a string key of the user store. */
    method SetCommentorUserId(value: Value, userIds: set<string>) returns (ok: bool)
      modifies this`commentorUserId
      ensures ok == (value.Str? && value.s in userIds)
      ensures commentorUserId == if ok then value.s else old(commentorUserId)
    {
      ok := value.Str? && value.s in userIds;
      if ok {
        commentorUserId := value.s;
      }
    }

    /** The id must be a string key of the place store. */
    method SetPlaceId(value: Value, placeIds: set<string>) returns (ok: bool)
      modifies this`placeId
      ensures ok == (value.Str? && value.s in placeIds)
      ensures placeId == if ok then value.s else old(placeId)
    {
      ok := value.Str? && value.s in placeIds;
      if ok {
        placeId := value.s;
      }
    }

    method SetAttr(k: string, v: Value, known: Known) returns (ok: bool)
      requires IsReviewKey(k)
      modifies this`commentorUserId, this`placeId, this`rating, this`feedback
      ensures ok == Assign(old(Fields()), k, v, known).Some?
      ensures Fields() == Assign(old(Fields()), k, v, known).GetOr(old(Fields()))
    {
      if k == "commentor_user_id" {
        ok := SetCommentorUserId(v, known.userIds);
      } else if k == "place_id" {
        ok := SetPlaceId(v, known.placeIds);
      } else if k == "rating" {
        ok := SetRating(v);
      } else {
        ok := SetFeedback(v);
      }
    }
  }

  /** `Review(**kwargs)` against the given stores: None when a setter raised. */
  method NewReview(id: string, created: Timestamp, updated: Timestamp, kwargs: seq<(string, Value)>, known: Known)
    returns (review: Option<Review>)
    ensures review.None? <==> Construct(Blank, kwargs, known).None?
    ensures review.Some? ==> fresh(review.value) && Construct(Blank, kwargs, known) == Some(review.value.Fields())
    ensures review.Some? ==> review.value.id == id && review.value.createdAt == created && review.value.updatedAt == updated
  {
    var r := new Review(id, created, updated);
    var i := 0;
    while i < |kwargs|
      invariant 0 <= i <= |kwargs|
      invariant r.id == id && r.createdAt == created && r.updatedAt == updated
      invariant Construct(Blank, kwargs, known) == Construct(r.Fields(), kwargs[i..], known)
    {
      var (k, v) := kwargs[i];
      assert kwargs[i..][0] == (k, v) && kwargs[i..][1..] == kwargs[i + 1..];
      if IsReviewKey(k) {
        var ok := r.SetAttr(k, v, known);
        if !ok {
          return None;
        }
      }
      i := i + 1;
    }
    return Some(r);
  }

  /**
   * `Review(commentor_user_id=..., place_id=..., rating=..., feedback=...)`,
   * the call `create_review` makes once it has checked the author and the
   * place: only the rating can then be refused.
   */
  method NewReviewFrom(id: string, created: Timestamp, updated: Timestamp,
                       author: string, placeId: string, rating: Value, feedback: string, known: Known)
    returns (review: Option<Review>)
    requires author in known.userIds && placeId in known.placeIds
    ensures review.Some? <==> IsValidRating(rating)
    ensures review.Some? ==> fresh(review.value)
    ensures review.Some? ==> review.value.Fields() == ReviewFields(author, placeId, rating.i, feedback)
    ensures review.Some? ==> review.value.id == id && review.value.createdAt == created && review.value.updatedAt == updated
  {
    ConstructFromAll(Str(author), Str(placeId), rating, Str(feedback), known);
    review := NewReview(id, created, updated, PostArgs(Str(author), Str(placeId), rating, Str(feedback)), known);
  }
}
