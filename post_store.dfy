/** The `posts` table of src/app.js and the handlers that change or read it:
    the insert of `/submit`, the admin approve/reject/delete actions, the
    admin listing with its counts, and the approved feed of the home page.
    The table is a map from id to row; `nextId` is the AUTOINCREMENT
    counter, which never hands out an id twice, even after a delete. */
module PostStore {
  import opened Wrappers
  import Scorer
  import opened Submission

  /** One row of `posts`; `createdAt` is CURRENT_TIMESTAMP at insertion. */
  datatype Post = Post(
    id: int,
    reason: string,
    town: Option<string>,
    state: Option<string>,
    ipAddress: Option<string>,
    status: Status,
    scores: Option<Scorer.Scores>,
    safetyScore: int,
    createdAt: int)

  /** The number of rows on the home page. */
  const FeedLimit := 50

  /** The admin listing's `status` query parameter: one of the three status
      names selects that status; anything else, or nothing, selects all. */
  function StatusFilter(status: Option<string>): (f: Option<Status>)
    ensures f == Some(Pending) <==> status == Some("pending")
    ensures f == Some(Approved) <==> status == Some("approved")
    ensures f == Some(Rejected) <==> status == Some("rejected")
  {
    match status
    case Some("pending") => Some(Pending)
    case Some("approved") => Some(Approved)
    case Some("rejected") => Some(Rejected)
    case _ => None
  }

  predicate Selects(filter: Option<Status>, s: Status) {
    filter.None? || filter.value == s
  }

  ghost predicate NewestFirst(rows: seq<Post>) {
    forall i, j :: 0 <= i < j < |rows| ==> rows[i].createdAt >= rows[j].createdAt
  }

  ghost predicate DistinctIds(rows: seq<Post>) {
    forall i, j :: 0 <= i < j < |rows| ==> rows[i].id != rows[j].id
  }

  /** `UPDATE posts SET moderation_status = s WHERE id = ?`: only the row with
      that id changes, and in it only the status; an unknown id changes nothing. */
  function WithStatus(posts: map<int, Post>, id: int, s: Status): (r: map<int, Post>)
    ensures r.Keys == posts.Keys
    ensures forall k :: k in posts && k != id ==> r[k] == posts[k]
    ensures id in posts ==> r[id] == posts[id].(status := s)
    ensures id !in posts ==> r == posts
  {
    if id in posts then posts[id := posts[id].(status := s)] else posts
  }

  /** Setting the same status twice is the same as setting it once. */
  lemma WithStatusIdempotent(posts: map<int, Post>, id: int, s: Status)
    ensures WithStatus(WithStatus(posts, id, s), id, s) == WithStatus(posts, id, s)
  {
  }

  /** The number of rows whose status is `s`: zero exactly when no row has it. */
  function CountWith(posts: map<int, Post>, s: Status): (n: nat)
    ensures n == 0 <==> forall id :: id in posts ==> posts[id].status != s
  {
    var ids := set id | id in posts && posts[id].status == s;
    assert (forall id :: id in posts ==> posts[id].status != s) ==> ids == {};
    assert forall id :: id in posts && posts[id].status == s ==> id in ids;
    |ids|
  }

  /** The admin page's `totalCounts`. */
  datatype Counts = Counts(all: nat, pending: nat, approved: nat, rejected: nat)

  /** The four COUNT(*) queries; as every row has one of the three statuses,
      the total is their sum. */
  function Tally(posts: map<int, Post>): (c: Counts)
    ensures c.all == |posts|
    ensures c.all == c.pending + c.approved + c.rejected
  {
    StatusesPartitionRows(posts);
    Counts(|posts|, CountWith(posts, Pending), CountWith(posts, Approved), CountWith(posts, Rejected))
  }

  lemma StatusesPartitionRows(posts: map<int, Post>)
    ensures |posts| == CountWith(posts, Pending) + CountWith(posts, Approved) + CountWith(posts, Rejected)
  {
    var p := set id | id in posts && posts[id].status == Pending;
    var a := set id | id in posts && posts[id].status == Approved;
    var r := set id | id in posts && posts[id].status == Rejected;
    assert p !! a && (p + a) !! r;
    assert posts.Keys == p + a + r;
  }

  /** Puts `p` into a newest-first list, before the rows no newer than it. */
  function InsertByAge(rows: seq<Post>, p: Post): (r: seq<Post>)
    ensures |r| == |rows| + 1
    ensures forall x :: x in r <==> x in rows || x == p
    ensures NewestFirst(rows) ==> NewestFirst(r)
  {
    if rows == [] || rows[0].createdAt <= p.createdAt then
      [p] + rows
    else
      var tail := InsertByAge(rows[1..], p);
      assert tail == [] || tail[0] == p || tail[0] in rows[1..];
      [rows[0]] + tail
  }

  /** Inserting adds exactly one copy of the row and loses or duplicates
      nothing else. */
  lemma {:induction false} InsertByAgeIsPermutation(rows: seq<Post>, p: Post)
    ensures multiset(InsertByAge(rows, p)) == multiset(rows) + multiset{p}
  {
    if rows == [] || rows[0].createdAt <= p.createdAt {
    } else {
      InsertByAgeIsPermutation(rows[1..], p);
      assert rows == [rows[0]] + rows[1..];
    }
  }

  /** Inserting a row whose id is new keeps the ids distinct. */
  lemma {:induction false} InsertByAgeKeepsIdsDistinct(rows: seq<Post>, p: Post)
    requires DistinctIds(rows)
    requires forall x :: x in rows ==> x.id != p.id
    ensures DistinctIds(InsertByAge(rows, p))
  {
    if rows == [] || rows[0].createdAt <= p.createdAt {
    } else {
      var tail := InsertByAge(rows[1..], p);
      assert forall x :: x in rows[1..] ==> x in rows;
      InsertByAgeKeepsIdsDistinct(rows[1..], p);
      forall j | 0 <= j < |tail| ensures tail[j].id != rows[0].id {
        assert tail[j] in tail;
        if tail[j] != p {
          assert tail[j] in rows[1..];
          var k :| 0 <= k < |rows[1..]| && rows[1..][k] == tail[j];
          assert rows[k + 1] == tail[j];
        }
      }
      assert InsertByAge(rows, p) == [rows[0]] + tail;
    }
  }

  class Board {
    var posts: map<int, Post>
    var nextId: int

    ghost predicate Valid()
      reads this
    {
      && nextId >= 1
      && forall id :: id in posts ==> 1 <= id < nextId && posts[id].id == id
    }

    constructor ()
      ensures Valid() && posts == map[] && nextId == 1
    {
      posts := map[];
      nextId := 1;
    }

    /** The `/submit` handler. `now` is the database clock and `stored` says
        whether the INSERT succeeded. A refused request changes nothing; an
        admitted one adds exactly one row under a fresh id, with the status
        the reply reports. */
    method Submit(env: Env, req: Request, verify: string -> bool,
                  service: string -> Option<Scorer.ServiceReply>, now: int, stored: bool)
      returns (code: int, reply: Reply)
      requires Valid()
      modifies this
      ensures Valid()
      ensures var d := Decide(env, req, verify, service);
              if d.Admit? && stored then
                && code == 200 && reply == Accepted(d.row.status)
                && nextId == old(nextId) + 1
                && posts == old(posts)[old(nextId) := FromRow(old(nextId), d.row, now)]
              else
                && posts == old(posts) && nextId == old(nextId)
                && (d.Refuse? ==> code == d.code && reply == Error(d.error))
                && (d.Admit? ==> code == 500 && reply == Error(StorageError))
      ensures reply.Accepted? ==> old(nextId) !in old(posts) && |posts| == |old(posts)| + 1
                                  && posts[old(nextId)].status == reply.status
    {
      var d := Decide(env, req, verify, service);
      if d.Refuse? {
        code, reply := d.code, Error(d.error);
      } else if !stored {
        code, reply := 500, Error(StorageError);
      } else {
        posts := posts[nextId := FromRow(nextId, d.row, now)];
        nextId := nextId + 1;
        code, reply := 200, Accepted(d.row.status);
      }
    }

    /** POST /admin/posts/:id/approve. */
    method Approve(id: int)
      requires Valid()
      modifies this`posts
      ensures Valid()
      ensures posts == WithStatus(old(posts), id, Approved)
    {
      posts := WithStatus(posts, id, Approved);
    }

    /** POST /admin/posts/:id/reject. */
    method Reject(id: int)
      requires Valid()
      modifies this`posts
      ensures Valid()
      ensures posts == WithStatus(old(posts), id, Rejected)
    {
      posts := WithStatus(posts, id, Rejected);
    }

    /** POST /admin/posts/:id/delete: only that row goes; the id is not reused. */
    method Delete(id: int)
      requires Valid()
      modifies this`posts
      ensures Valid()
      ensures posts == old(posts) - {id}
      ensures forall k :: k in old(posts) && k != id ==> k in posts && posts[k] == old(posts)[k]
    {
      posts := posts - {id};
    }

    /** The admin listing: the rows the `status` parameter selects, each once,
        newest first. */
    method List(status: Option<string>) returns (rows: seq<Post>)
      requires Valid()
      ensures forall x :: x in rows ==>
                x.id in posts && posts[x.id] == x && Selects(StatusFilter(status), x.status)
      ensures forall id :: id in posts && Selects(StatusFilter(status), posts[id].status) ==> posts[id] in rows
      ensures DistinctIds(rows)
      ensures NewestFirst(rows)
    {
      var filter := StatusFilter(status);
      rows := [];
      var key := 1;
      while key < nextId
        invariant 1 <= key <= nextId
        invariant forall x :: x in rows ==>
                    x.id in posts && x.id < key && posts[x.id] == x && Selects(filter, x.status)
        invariant forall id :: id in posts && id < key && Selects(filter, posts[id].status) ==> posts[id] in rows
        invariant DistinctIds(rows)
        invariant NewestFirst(rows)
      {
        if key in posts && Selects(filter, posts[key].status) {
          InsertByAgeKeepsIdsDistinct(rows, posts[key]);
          rows := InsertByAge(rows, posts[key]);
        }
        key := key + 1;
      }
    }

    /** The admin page's totals. */
    method Counts() returns (c: Counts)
      requires Valid()
      ensures c == Tally(posts)
      ensures c.all == c.pending + c.approved + c.rejected
    {
      c := Tally(posts);
    }

    /** The home page: the newest approved rows, at most 50 of them; an
        approved row is left out only when 50 rows at least as new are shown. */
    method HomeFeed() returns (rows: seq<Post>)
      requires Valid()
      ensures |rows| <= FeedLimit
      ensures forall x :: x in rows ==> x.id in posts && posts[x.id] == x && x.status == Approved
      ensures DistinctIds(rows)
      ensures NewestFirst(rows)
      ensures forall id :: id in posts && posts[id].status == Approved && posts[id] !in rows ==>
                |rows| == FeedLimit && forall i :: 0 <= i < |rows| ==> rows[i].createdAt >= posts[id].createdAt
    {
      var approved := List(Some("approved"));
      rows := if |approved| <= FeedLimit then approved else approved[..FeedLimit];
      forall id | id in posts && posts[id].status == Approved && posts[id] !in rows
        ensures |rows| == FeedLimit && forall i :: 0 <= i < |rows| ==> rows[i].createdAt >= posts[id].createdAt
      {
        var k :| 0 <= k < |approved| && approved[k] == posts[id];
        assert k >= FeedLimit;
      }
    }
  }

  /** The row stored for an admitted submission. */
  function FromRow(id: int, row: Row, now: int): Post {
    Post(id, row.reason, row.town, row.state, row.ipAddress, row.status, row.scores, row.safetyScore, now)
  }

  /** The JSON reply of `/submit`. */
  datatype Reply = Accepted(status: Status) | Error(error: string)
}
