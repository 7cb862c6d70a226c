/**
 * The Comment entity: a remark on a document, with the list of users who
 * liked it. A user appears in the like list at most once.
 */
module CommentModel {
  import opened JavaLang

  /** A comment as stored, and as it is serialised into a notification. */
  datatype CommentState = CommentState(
    id: Option<nat>,
    content: Option<string>,
    author: Option<string>,
    documentId: Option<string>,
    likedUsers: Option<seq<string>>,
    parentCommentId: Option<nat>)

  /** The like list, a null list read as empty. */
  function Likes(l: Option<seq<string>>): seq<string>
  {
    if l.Some? then l.value else []
  }

  /** The like list after addLikeUser: `u` appended unless already present. */
  function WithLike(l: seq<string>, u: string): (r: seq<string>)
    ensures u in r
    ensures forall x :: x in r <==> x in l || x == u
    ensures u in l ==> r == l
    ensures u !in l ==> |r| == |l| + 1
  {
    if u in l then l else l + [u]
  }

  /** List.indexOf(Object): the position of the first occurrence. */
  function FirstIndex(l: seq<string>, u: string): (i: nat)
    requires u in l
    ensures i < |l| && l[i] == u && u !in l[..i]
  {
    if l[0] == u then 0
    else
      assert l == [l[0]] + l[1..];
      var k := FirstIndex(l[1..], u);
      assert l[..k + 1] == [l[0]] + l[1..][..k];
      k + 1
  }

  /** List.remove(Object): removes the first occurrence, if any, keeping the order of the rest. */
  function RemoveFirst(l: seq<string>, u: string): (r: seq<string>)
    ensures u !in l ==> r == l
    ensures u in l ==> |r| == |l| - 1
    ensures multiset(r) == multiset(l) - multiset{u}
  {
    if l == [] then []
    else
      assert l == [l[0]] + l[1..];
      if l[0] == u then l[1..]
      else
        var rest := RemoveFirst(l[1..], u);
        assert multiset([l[0]] + rest) == multiset{l[0]} + multiset(rest);
        [l[0]] + rest
  }

  /** What is removed is the first occurrence: the list is spliced around it. */
  lemma {:induction false} RemoveFirstSplices(l: seq<string>, u: string)
    requires u in l
    ensures RemoveFirst(l, u) == l[..FirstIndex(l, u)] + l[FirstIndex(l, u) + 1..]
  {
    assert l == [l[0]] + l[1..];
    if l[0] != u {
      RemoveFirstSplices(l[1..], u);
      ConsKeepsSplice(l, u, RemoveFirst(l[1..], u));
    }
  }

  /** The splice around the first occurrence, behind a head that is not `u`. */
  lemma ConsKeepsSplice(l: seq<string>, u: string, rest: seq<string>)
    requires l != [] && l[0] != u && u in l
    requires rest == l[1..][..FirstIndex(l[1..], u)] + l[1..][FirstIndex(l[1..], u) + 1..]
    ensures [l[0]] + rest == l[..FirstIndex(l, u)] + l[FirstIndex(l, u) + 1..]
  {
    var k := FirstIndex(l[1..], u);
    assert FirstIndex(l, u) == k + 1;
    assert l[..k + 1] == [l[0]] + l[1..][..k];
    assert l[k + 2..] == l[1..][k + 1..];
    assert [l[0]] + rest == ([l[0]] + l[1..][..k]) + l[1..][k + 1..];
  }

  /** Adding a like keeps the list free of duplicates. */
  lemma WithLikeNoDuplicates(l: seq<string>, u: string)
    requires NoDuplicates(l)
    ensures NoDuplicates(WithLike(l, u))
  {
  }

  /** Removing an element never brings in one that was absent. */
  lemma RemovedKeepsAbsent(l: seq<string>, u: string, x: string)
    requires x !in l
    ensures x !in RemoveFirst(l, u)
  {
    assert multiset(l)[x] == 0;
  }

  /** Putting an absent element in front keeps a list free of duplicates. */
  lemma ConsNoDuplicates(x: string, s: seq<string>)
    requires x !in s && NoDuplicates(s)
    ensures NoDuplicates([x] + s)
  {
    var r := [x] + s;
    forall i, j | 0 <= i < j < |r| ensures r[i] != r[j] {
      assert r[j] == s[j - 1];
      if i > 0 {
        assert r[i] == s[i - 1];
      }
    }
  }

  /** In a list without duplicates, removing a user removes every like of theirs. */
  lemma {:induction false} RemoveFirstRemovesUser(l: seq<string>, u: string)
    requires NoDuplicates(l)
    ensures u !in RemoveFirst(l, u)
    ensures NoDuplicates(RemoveFirst(l, u))
  {
    if l != [] {
      var tail := l[1..];
      assert NoDuplicates(tail) by {
        forall i, j | 0 <= i < j < |tail| ensures tail[i] != tail[j] {
          assert tail[i] == l[i + 1] && tail[j] == l[j + 1];
        }
      }
      assert l[0] !in tail by {
        forall j | 0 <= j < |tail| ensures tail[j] != l[0] {
          assert tail[j] == l[j + 1];
        }
      }
      if l[0] != u {
        var rest := RemoveFirst(tail, u);
        RemoveFirstRemovesUser(tail, u);
        RemovedKeepsAbsent(tail, u, l[0]);
        assert RemoveFirst(l, u) == [l[0]] + rest;
        ConsNoDuplicates(l[0], rest);
      }
    }
  }

  /** Liking and then unliking restores the list a user had not liked. */
  lemma LikeThenUnlike(l: seq<string>, u: string)
    requires u !in l
    ensures RemoveFirst(WithLike(l, u), u) == l
  {
    var liked := l + [u];
    RemoveFirstSplices(liked, u);
    var i := FirstIndex(liked, u);
    assert liked[..i] == l;
  }

  class Comment {
    var id: Option<nat>
    var content: Option<string>
    var author: Option<string>
    var documentId: Option<string>
    var likedUsers: Option<seq<string>>
    var parentCommentId: Option<nat>

    /** `new Comment()`: an empty like list; the id is assigned when the comment is saved. */
    constructor ()
      ensures State() == CommentState(None, None, None, None, Some([]), None)
    {
      id := None;
      content := None;
      author := None;
      documentId := None;
      likedUsers := Some([]);
      parentCommentId := None;
    }

    constructor WithText(content: Option<string>, author: Option<string>, documentId: Option<string>)
      ensures State() == CommentState(None, content, author, documentId, Some([]), None)
    {
      this.id := None;
      this.content := content;
      this.author := author;
      this.documentId := documentId;
      this.likedUsers := Some([]);
      this.parentCommentId := None;
    }

    /** The entity the persistence layer materialises for a stored comment. */
    constructor Load(row: CommentState)
      ensures State() == row
    {
      id := row.id;
      content := row.content;
      author := row.author;
      documentId := row.documentId;
      likedUsers := row.likedUsers;
      parentCommentId := row.parentCommentId;
    }

    function State(): CommentState
      reads this
    {
      CommentState(id, content, author, documentId, likedUsers, parentCommentId)
    }

    /** The number of likes: the list's size, 0 for a null list. */
    function GetLikeCount(): (n: nat)
      reads this
      ensures n == |Likes(likedUsers)|
      ensures likedUsers.None? ==> n == 0
    {
      if likedUsers.Some? then |likedUsers.value| else 0
    }

    /** Adds `u` unless present; reports whether the list changed. A null list becomes a list. */
    method AddLikeUser(u: string) returns (added: bool)
      modifies this`likedUsers
      ensures added <==> u !in Likes(old(likedUsers))
      ensures likedUsers == Some(WithLike(Likes(old(likedUsers)), u))
    {
      if likedUsers.None? {
        likedUsers := Some([]);
      }
      if u !in likedUsers.value {
        likedUsers := Some(likedUsers.value + [u]);
        added := true;
      } else {
        added := false;
      }
    }

    /** Removes the first occurrence of `u`; false when absent or the list is null. */
    method RemoveLikeUser(u: string) returns (removed: bool)
      modifies this`likedUsers
      ensures removed <==> u in Likes(old(likedUsers))
      ensures old(likedUsers).None? ==> likedUsers.None?
      ensures old(likedUsers).Some? ==> likedUsers == Some(RemoveFirst(old(likedUsers).value, u))
    {
      if likedUsers.Some? {
        removed := u in likedUsers.value;
        likedUsers := Some(RemoveFirst(likedUsers.value, u));
      } else {
        removed := false;
      }
    }
  }
}
