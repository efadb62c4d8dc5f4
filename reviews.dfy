/**
 * The review handlers: add a review, and list the reviews of one service.
 * The `reviews` table is an object whose rows `add_review` appends to. A
 * database error during a handler is an input (`dbError` holds the text of
 * the exception); nothing is then committed.
 */
module Reviews {
  import opened Common

  /** The four form fields of a new review, as submitted text. */
  datatype ReviewForm = ReviewForm(serviceId: string, userName: string, rating: string, review: string)

  /** A row of the `reviews` table. */
  datatype ReviewRow = ReviewRow(serviceId: string, userName: string, rating: string, review: string)

  /** One review as `get_reviews` lists it: the user_name, rating and review columns. */
  datatype ReviewView = ReviewView(userName: string, rating: string, review: string)

  function View(row: ReviewRow): ReviewView
  {
    ReviewView(row.userName, row.rating, row.review)
  }

  /** `not head` is false for each of the four fields: none is empty. */
  predicate Filled(form: ReviewForm)
  {
    form.serviceId != "" && form.userName != "" && form.rating != "" && form.review != ""
  }

  /** The loop of `add_review` over its required fields: false at the first empty one. */
  method AllFilled(fields: seq<string>) returns (ok: bool)
    ensures ok <==> forall k :: 0 <= k < |fields| ==> fields[k] != ""
  {
    for i := 0 to |fields|
      invariant forall k :: 0 <= k < i ==> fields[k] != ""
    {
      if fields[i] == "" {
        return false;
      }
    }
    return true;
  }

  /** `WHERE service_id = serviceId`. */
  function IsFor(serviceId: string): ReviewRow -> bool
  {
    (row: ReviewRow) => row.serviceId == serviceId
  }

  /** The listing columns of each row, in order. */
  function Views(rows: seq<ReviewRow>): seq<ReviewView>
  {
    seq(|rows|, k requires 0 <= k < |rows| => View(rows[k]))
  }

  /** The listing columns of a concatenation are the concatenation of the listing columns. */
  lemma ViewsAppend(x: seq<ReviewRow>, y: seq<ReviewRow>)
    ensures Views(x + y) == Views(x) + Views(y)
  {
  }

  /** The reviews stored for `serviceId`, in the model's stored order. */
  function ReviewsFor(rows: seq<ReviewRow>, serviceId: string): (views: seq<ReviewView>)
    ensures forall v :: v in views <==> exists row :: row in rows && row.serviceId == serviceId && View(row) == v
    ensures views == [] <==> forall row :: row in rows ==> row.serviceId != serviceId
  {
    var matching := Filter(rows, IsFor(serviceId));
    var views := Views(matching);
    forall v ensures v in views <==> exists row :: row in rows && row.serviceId == serviceId && View(row) == v {
      if v in views {
        var k :| 0 <= k < |views| && views[k] == v;
        assert matching[k] in matching && IsFor(serviceId)(matching[k]);
      }
      if exists row :: row in rows && row.serviceId == serviceId && View(row) == v {
        var row :| row in rows && row.serviceId == serviceId && View(row) == v;
        assert IsFor(serviceId)(row);
        var k :| 0 <= k < |matching| && matching[k] == row;
        assert views[k] == v;
      }
    }
    assert views != [] ==> views[0] in views;
    views
  }

  /** A single stored review is listed exactly when it is for `serviceId`. */
  lemma ReviewsForOne(row: ReviewRow, serviceId: string)
    ensures ReviewsFor([row], serviceId) == if row.serviceId == serviceId then [View(row)] else []
  {
  }

  /**
   * The listing of a concatenation is the concatenation of the listings:
   * with `ReviewsForOne` this fixes the listing completely, duplicates and
   * the model's stored order included.
   */
  lemma ReviewsForAppend(a: seq<ReviewRow>, b: seq<ReviewRow>, serviceId: string)
    ensures ReviewsFor(a + b, serviceId) == ReviewsFor(a, serviceId) + ReviewsFor(b, serviceId)
  {
    var fa, fb := Filter(a, IsFor(serviceId)), Filter(b, IsFor(serviceId));
    FilterAppend(a, b, IsFor(serviceId));
    ViewsAppend(fa, fb);
    assert ReviewsFor(a + b, serviceId) == Views(fa + fb);
    assert ReviewsFor(a, serviceId) == Views(fa);
    assert ReviewsFor(b, serviceId) == Views(fb);
  }

  const MissingField := "Missing required field"
  const ReviewAdded := "Review added successfully"
  const NoReviews := "No reviews found for this service"

  /** The `reviews` table. */
  class ReviewsTable {
    var rows: seq<ReviewRow>

    constructor ()
      ensures rows == []
    {
      rows := [];
    }

    /**
     * `add_review`: 400 and no write when a field is empty; otherwise one
     * row appended and 201, or 500 and no change on a database error.
     */
    method AddReview(form: ReviewForm, dbError: Option<string>) returns (reply: Reply<()>)
      modifies this
      ensures !Filled(form) ==> reply == Reply(400, Error(MissingField)) && rows == old(rows)
      ensures Filled(form) && dbError.Some? ==>
        reply == Reply(500, Error("Failed to add review: " + dbError.value)) && rows == old(rows)
      ensures Filled(form) && dbError.None? ==>
        && reply == Reply(201, Message(ReviewAdded))
        && rows == old(rows) + [ReviewRow(form.serviceId, form.userName, form.rating, form.review)]
    {
      var fields := [form.serviceId, form.userName, form.rating, form.review];
      var filled := AllFilled(fields);
      if !filled {
        reply := Reply(400, Error(MissingField));
        return;
      }
      assert fields[0] != "" && fields[1] != "" && fields[2] != "" && fields[3] != "";
      if dbError.Some? {
        reply := Reply(500, Error("Failed to add review: " + dbError.value));
        return;
      }
      rows := rows + [ReviewRow(form.serviceId, form.userName, form.rating, form.review)];
      reply := Reply(201, Message(ReviewAdded));
    }

    /**
     * `get_reviews`: 500 on a database error; otherwise the reviews whose
     * service id is `serviceId` (all of them and no others), or 404 when
     * there are none.
     */
    function GetReviews(serviceId: string, dbError: Option<string>): (r: Reply<seq<ReviewView>>)
      reads this
      ensures dbError.Some? ==> r == Reply(500, Error("Failed to fetch reviews: " + dbError.value))
      ensures dbError.None? && (forall row :: row in rows ==> row.serviceId != serviceId) ==>
        r == Reply(404, Message(NoReviews))
      ensures r.status == 200 <==> dbError.None? && exists row :: row in rows && row.serviceId == serviceId
      ensures r.status == 200 ==>
        && r.body.Data?
        && r.body.value == ReviewsFor(rows, serviceId)
        && forall v :: v in r.body.value <==>
             exists row :: row in rows && row.serviceId == serviceId && View(row) == v
    {
      if dbError.Some? then Reply(500, Error("Failed to fetch reviews: " + dbError.value))
      else
        var views := ReviewsFor(rows, serviceId);
        if views == [] then Reply(404, Message(NoReviews)) else Reply(200, Data(views))
    }
  }
}
