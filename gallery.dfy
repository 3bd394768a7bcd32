/**
 * The gallery screen: the list of posts kept in step with the document store's
 * snapshot listener, and the pick / upload / save flow around it.
 *
 * The document store, the file storage and the image picker are outside the
 * model: each of their answers reaches the screen as an event (a snapshot, an
 * upload that completes or fails, a write that settles, a picked or cancelled
 * image) whose outcome is a parameter.
 */
module Gallery {
  import opened Wrappers

  /** A post as the screen lists it: the document's id spread together with its data. */
  datatype Post = Post(id: string, path: string, date: int)

  /** A document delivered by the snapshot listener: `doc.id` and `doc.data()`, which holds `{path, date}`. */
  datatype Doc = Doc(id: string, path: string, date: int)

  // ---------------------------------------------------------------------------
  // The post list and the snapshot merge
  // ---------------------------------------------------------------------------

  /** The ids that occur in a list of posts. */
  function Ids(posts: seq<Post>): set<string> {
    set p | p in posts :: p.id
  }

  /** The ids of a snapshot's documents. */
  function DocIds(docs: seq<Doc>): set<string> {
    set d | d in docs :: d.id
  }

  /** No two posts of the list share an id. */
  predicate UniqueIds(posts: seq<Post>) {
    forall i, j :: 0 <= i < j < |posts| ==> posts[i].id != posts[j].id
  }

  /**
   * `posts.findIndex(post => post.id === id)`: the first index holding `id`,
   * or -1 when no post has it.
   */
  function FindIndex(posts: seq<Post>, id: string): (i: int)
    ensures -1 <= i < |posts|
    ensures 0 <= i ==> posts[i].id == id && forall j :: 0 <= j < i ==> posts[j].id != id
    ensures i == -1 <==> forall j :: 0 <= j < |posts| ==> posts[j].id != id
  {
    if |posts| == 0 then -1
    else if posts[0].id == id then 0
    else
      var k := FindIndex(posts[1..], id);
      if k == -1 then -1 else k + 1
  }

  /**
   * The `setPosts` updater run for one document of a snapshot: a post already
   * listed under the document's id takes the document's `path` and keeps the
   * rest; otherwise the document becomes a new post at the head of the list.
   */
  function Merge(posts: seq<Post>, d: Doc): (r: seq<Post>)
    ensures |r| == |posts| || |r| == |posts| + 1
    ensures exists k :: 0 <= k < |r| && r[k].id == d.id && r[k].path == d.path
  {
    var i := FindIndex(posts, d.id);
    if 0 <= i then
      assert posts[i := posts[i].(path := d.path)][i].id == d.id;
      posts[i := posts[i].(path := d.path)]
    else
      assert ([Post(d.id, d.path, d.date)] + posts)[0].id == d.id;
      [Post(d.id, d.path, d.date)] + posts
  }

  /** The list after the snapshot's documents have been merged in, in the order `forEach` visits them. */
  function MergeAll(posts: seq<Post>, docs: seq<Doc>): (r: seq<Post>)
    ensures |posts| <= |r| <= |posts| + |docs|
    decreases |docs|
  {
    if docs == [] then posts
    else Merge(MergeAll(posts, docs[..|docs| - 1]), docs[|docs| - 1])
  }

  /**
   * When a post already carries the document's id, the list keeps its length,
   * every other entry stays where it was, and the matching entry keeps its id
   * and date while its path becomes the document's.
   */
  lemma MergeUpdatesInPlace(posts: seq<Post>, d: Doc, i: nat)
    requires i < |posts| && posts[i].id == d.id
    requires forall j :: 0 <= j < i ==> posts[j].id != d.id
    ensures |Merge(posts, d)| == |posts|
    ensures Merge(posts, d)[i] == Post(posts[i].id, d.path, posts[i].date)
    ensures forall j :: 0 <= j < |posts| && j != i ==> Merge(posts, d)[j] == posts[j]
  {
  }

  /** With unique ids, the only post carrying the document's id is the one updated. */
  lemma MergeUpdatesUnique(posts: seq<Post>, d: Doc, i: nat)
    requires UniqueIds(posts)
    requires i < |posts| && posts[i].id == d.id
    ensures Merge(posts, d) == posts[i := Post(posts[i].id, d.path, posts[i].date)]
  {
  }

  /** A document whose id is not listed is prepended as `{id, ...data}`, the old list following in order. */
  lemma MergePrependsNew(posts: seq<Post>, d: Doc)
    requires d.id !in Ids(posts)
    ensures Merge(posts, d) == [Post(d.id, d.path, d.date)] + posts
    ensures |Merge(posts, d)| == |posts| + 1
  {
  }

  /** Merging adds the document's id to the listed ids and no other. */
  lemma MergeIds(posts: seq<Post>, d: Doc)
    ensures Ids(Merge(posts, d)) == Ids(posts) + {d.id}
  {
    var r := Merge(posts, d);
    var i := FindIndex(posts, d.id);
    if 0 <= i {
      assert forall j :: 0 <= j < |posts| ==> r[j].id == posts[j].id;
      forall x | x in Ids(r) ensures x in Ids(posts) + {d.id} {
        var p :| p in r && p.id == x;
        var j :| 0 <= j < |r| && r[j] == p;
        assert posts[j] in posts;
      }
      forall x | x in Ids(posts) + {d.id} ensures x in Ids(r) {
        if x == d.id {
          assert r[i] in r;
        } else {
          var p :| p in posts && p.id == x;
          var j :| 0 <= j < |posts| && posts[j] == p;
          assert r[j] in r;
        }
      }
    } else {
      assert r == [Post(d.id, d.path, d.date)] + posts;
      assert r[0] in r;
    }
  }

  /** Merging keeps the ids of the list unique. */
  lemma MergePreservesUnique(posts: seq<Post>, d: Doc)
    requires UniqueIds(posts)
    ensures UniqueIds(Merge(posts, d))
  {
  }

  /** Applying the same document a second time leaves the list as the first application made it. */
  lemma MergeIdempotent(posts: seq<Post>, d: Doc)
    ensures Merge(Merge(posts, d), d) == Merge(posts, d)
  {
    var r := Merge(posts, d);
    var i := FindIndex(posts, d.id);
    if 0 <= i {
      MergeUpdatesInPlace(r, d, i);
      assert r[i := r[i].(path := d.path)] == r;
    } else {
      assert r == [Post(d.id, d.path, d.date)] + posts;
      assert FindIndex(r, d.id) == 0;
    }
  }

  /** A snapshot merge keeps the ids of the list unique. */
  lemma {:induction false} MergeAllPreservesUnique(posts: seq<Post>, docs: seq<Doc>)
    requires UniqueIds(posts)
    ensures UniqueIds(MergeAll(posts, docs))
    decreases |docs|
  {
    if docs != [] {
      MergeAllPreservesUnique(posts, docs[..|docs| - 1]);
      MergePreservesUnique(MergeAll(posts, docs[..|docs| - 1]), docs[|docs| - 1]);
    }
  }

  /** After a snapshot merge the listed ids are the old ones together with the snapshot's. */
  lemma {:induction false} MergeAllIds(posts: seq<Post>, docs: seq<Doc>)
    ensures Ids(MergeAll(posts, docs)) == Ids(posts) + DocIds(docs)
    decreases |docs|
  {
    if docs != [] {
      var front, last := docs[..|docs| - 1], docs[|docs| - 1];
      assert docs == front + [last];
      assert DocIds(docs) == DocIds(front) + {last.id};
      MergeAllIds(posts, front);
      MergeIds(MergeAll(posts, front), last);
    }
  }

  /** The post a document becomes when it is new to the list: `{id, ...data}`. */
  function AsPost(d: Doc): Post {
    Post(d.id, d.path, d.date)
  }

  /** No two documents of a snapshot share an id. */
  predicate DistinctDocIds(docs: seq<Doc>) {
    forall i, j :: 0 <= i < j < |docs| ==> docs[i].id != docs[j].id
  }

  /** A snapshot's documents as posts, last document first. */
  function NewPosts(docs: seq<Doc>): (r: seq<Post>)
    ensures |r| == |docs|
    ensures forall i :: 0 <= i < |docs| ==> r[i] == AsPost(docs[|docs| - 1 - i])
    decreases |docs|
  {
    if docs == [] then []
    else [AsPost(docs[|docs| - 1])] + NewPosts(docs[..|docs| - 1])
  }

  /**
   * A snapshot of distinct documents none of which is listed yet ends up in
   * front of the old list in REVERSE snapshot order: each document is
   * prepended in turn, so the one visited last comes first.
   */
  lemma {:induction false} MergeAllPrependsNew(posts: seq<Post>, docs: seq<Doc>)
    requires DistinctDocIds(docs)
    requires forall i :: 0 <= i < |docs| ==> docs[i].id !in Ids(posts)
    ensures MergeAll(posts, docs) == NewPosts(docs) + posts
    decreases |docs|
  {
    if docs != [] {
      var front, last := docs[..|docs| - 1], docs[|docs| - 1];
      assert DistinctDocIds(front);
      MergeAllPrependsNew(posts, front);
      var mid := MergeAll(posts, front);
      assert mid == NewPosts(front) + posts;
      MergeAllIds(posts, front);
      assert last.id !in DocIds(front);
      assert last.id !in Ids(mid);
      MergePrependsNew(mid, last);
      calc {
        MergeAll(posts, docs);
        Merge(mid, last);
        [AsPost(last)] + (NewPosts(front) + posts);
        ([AsPost(last)] + NewPosts(front)) + posts;
        NewPosts(docs) + posts;
      }
    }
  }

  /**
   * The listener's query orders documents by date, newest first; merged into
   * an empty list they are therefore listed oldest first.
   */
  lemma SnapshotListedOldestFirst(docs: seq<Doc>)
    requires DistinctDocIds(docs)
    requires forall i, j :: 0 <= i < j < |docs| ==> docs[j].date <= docs[i].date
    ensures |MergeAll([], docs)| == |docs|
    ensures forall i, j :: 0 <= i < j < |docs| ==> MergeAll([], docs)[i].date <= MergeAll([], docs)[j].date
  {
    MergeAllPrependsNew([], docs);
  }

  /**
   * The snapshot callback: `querySnapshot.forEach` hands each document to the
   * `setPosts` updater in turn.
   */
  method MergeSnapshot(posts: seq<Post>, docs: seq<Doc>) returns (r: seq<Post>)
    ensures r == MergeAll(posts, docs)
    ensures UniqueIds(posts) ==> UniqueIds(r)
    ensures Ids(r) == Ids(posts) + DocIds(docs)
  {
    r := posts;
    var k := 0;
    while k < |docs|
      invariant 0 <= k <= |docs|
      invariant r == MergeAll(posts, docs[..k])
    {
      assert docs[..k + 1][..k] == docs[..k];
      r := Merge(r, docs[k]);
      k := k + 1;
    }
    assert docs[..k] == docs;
    if UniqueIds(posts) {
      MergeAllPreservesUnique(posts, docs);
    }
    MergeAllIds(posts, docs);
  }

  // ---------------------------------------------------------------------------
  // The pick / upload / save flow
  // ---------------------------------------------------------------------------

  /** The post a long press bound for editing: `{id, date}`, either part possibly undefined. */
  datatype EditTarget = EditTarget(id: Option<string>, date: Option<int>)

  /** An upload in flight: the image file it sends and the `toEdit?.id` its completion callback saves under. */
  datatype UploadTask = UploadTask(file: string, editId: Option<string>)

  /** A write `savePostData` issues to the document store. */
  datatype SaveRequest =
    | UpdatePath(id: string, path: string)   // `updateDoc` of `userPosts/{id}` with `{path}`
    | CreatePost(path: string, date: int)    // `setDoc` of a fresh random id with `{path, date}`

  /** What the upload button does when pressed. */
  datatype ButtonAction = OpenPicker | StartUpload

  /** `toEdit?.id`. */
  function EditId(toEdit: Option<EditTarget>): (id: Option<string>)
    ensures toEdit.None? ==> id.None?
    ensures toEdit.Some? ==> id == toEdit.value.id
  {
    match toEdit
    case None => None
    case Some(t) => t.id
  }

  /** The upload button uploads when an image is held and otherwise opens the picker. */
  function ButtonActionFor(image: Option<string>): (a: ButtonAction)
    ensures a == StartUpload <==> Truthy(image)
    ensures a == OpenPicker <==> !Truthy(image)
  {
    if Truthy(image) then StartUpload else OpenPicker
  }

  /**
   * The write `savePostData(url, id)` issues: with a truthy edit id, an update
   * of that post's `path` alone; otherwise a new post with `path` and the
   * current time as `date`.
   */
  function SaveRequestFor(url: string, id: Option<string>, now: int): (req: SaveRequest)
    ensures req.path == url
    ensures req.UpdatePath? <==> Truthy(id)
    ensures req.UpdatePath? ==> req.id == id.value
    ensures req.CreatePost? ==> req.date == now
  {
    if Truthy(id) then UpdatePath(id.value, url) else CreatePost(url, now)
  }

  /**
   * Saving an edit of the `i`-th post writes only its `path`; when the store
   * reports the document back, whatever `date` it holds, the merge changes that
   * post's path and nothing else in the list.
   */
  lemma EditSaveChangesOnlyPath(posts: seq<Post>, i: nat, url: string, now: int, storedDate: int)
    requires UniqueIds(posts) && i < |posts| && posts[i].id != ""
    ensures SaveRequestFor(url, Some(posts[i].id), now) == UpdatePath(posts[i].id, url)
    ensures Merge(posts, Doc(posts[i].id, url, storedDate)) == posts[i := posts[i].(path := url)]
  {
  }

  /** The sequence without its `k`-th element. */
  function RemoveAt<T>(s: seq<T>, k: nat): (r: seq<T>)
    requires k < |s|
    ensures |r| == |s| - 1
    ensures forall j :: 0 <= j < k ==> r[j] == s[j]
    ensures forall j :: k <= j < |r| ==> r[j] == s[j + 1]
  {
    s[..k] + s[k + 1..]
  }

  /**
   * The screen's state. Each handler reads the state as it was when the handler
   * was called, as a React closure does, and changes it through its setters.
   */
  class GalleryScreen {
    var posts: seq<Post>
    var image: Option<string>
    var uploading: bool
    var saving: bool
    var toEdit: Option<EditTarget>
    var uploads: seq<UploadTask>
    var saves: seq<SaveRequest>
    /** Whether `currentUser` is present. */
    const signedIn: bool

    /** The listed posts never share an id. */
    ghost predicate Valid()
      reads this
    {
      UniqueIds(posts)
    }

    /** The screen as it mounts: no posts, no image, nothing in flight. */
    constructor (signedIn: bool)
      ensures Valid()
      ensures posts == [] && image == None && toEdit == None
      ensures !uploading && !saving && uploads == [] && saves == []
      ensures this.signedIn == signedIn
    {
      this.signedIn := signedIn;
      posts, image, toEdit := [], None, None;
      uploading, saving := false, false;
      uploads, saves := [], [];
    }

    /** The snapshot listener's callback: merge every delivered document into the list. */
    method OnSnapshot(docs: seq<Doc>)
      requires Valid()
      modifies this
      ensures Valid()
      ensures posts == MergeAll(old(posts), docs)
      ensures image == old(image) && toEdit == old(toEdit)
      ensures uploading == old(uploading) && saving == old(saving)
      ensures uploads == old(uploads) && saves == old(saves)
    {
      posts := MergeSnapshot(posts, docs);
    }

    /**
     * `uploadPhoto` as a closure that sees `held` as `image` and `edit` as
     * `toEdit`: nothing happens unless an image is held and a user is signed
     * in. Otherwise the image file is read first (`fetch` and `blob`; `read`
     * says whether that succeeded): on success `uploading` is set and the
     * upload starts, on failure the call rejects and nothing starts.
     */
    method UploadPhoto(held: Option<string>, edit: Option<EditTarget>, read: bool) returns (rejected: bool)
      modifies this
      ensures rejected <==> Truthy(held) && signedIn && !read
      ensures Truthy(held) && signedIn && read ==>
        uploading && uploads == old(uploads) + [UploadTask(held.value, EditId(edit))]
      ensures !(Truthy(held) && signedIn && read) ==> uploading == old(uploading) && uploads == old(uploads)
      ensures posts == old(posts) && image == old(image) && toEdit == old(toEdit)
      ensures saving == old(saving) && saves == old(saves)
    {
      rejected := false;
      if Truthy(held) && signedIn {
        if read {
          uploading := true;
          uploads := uploads + [UploadTask(held.value, EditId(edit))];
        } else {
          rejected := true;
        }
      }
    }

    /**
     * `pickImage(id, date)` with the picker's answer `picked` (None when the
     * pick was cancelled). `toEdit` is bound before the picker runs. On a pick
     * the image is held and the handler's own `uploadPhoto` call runs with the
     * `image` and `toEdit` its closure saw when the handler started; `read`
     * is the outcome of that call's file read. When the call rejects, the
     * handler stops before clearing `uploading`.
     */
    method PickImage(id: Option<string>, date: Option<int>, picked: Option<string>, read: bool)
      requires Valid()
      modifies this
      ensures Valid()
      ensures toEdit == Some(EditTarget(id, date))
      ensures posts == old(posts) && saving == old(saving) && saves == old(saves)
      ensures picked.None? ==>
        image == old(image) && uploading == old(uploading) && uploads == old(uploads)
      ensures picked.Some? ==> image == picked
      ensures picked.Some? ==> (uploading <==> Truthy(old(image)) && signedIn && !read)
      ensures picked.Some? && Truthy(old(image)) && signedIn && read ==>
        uploads == old(uploads) + [UploadTask(old(image).value, EditId(old(toEdit)))]
      ensures picked.Some? && !(Truthy(old(image)) && signedIn && read) ==> uploads == old(uploads)
    {
      var held, edit := image, toEdit;
      toEdit := Some(EditTarget(id, date));
      if picked.Some? {
        image := picked;
        uploading := true;
        var rejected := UploadPhoto(held, edit, read);
        if !rejected {
          uploading := false;
        }
      }
    }

    /** A long press on the `k`-th post: pick a replacement image for it. */
    method EditPost(k: nat, picked: Option<string>, read: bool)
      requires Valid() && k < |posts|
      modifies this
      ensures Valid()
      ensures toEdit == Some(EditTarget(Some(old(posts)[k].id), Some(old(posts)[k].date)))
      ensures posts == old(posts) && saving == old(saving) && saves == old(saves)
      ensures picked.None? ==>
        image == old(image) && uploading == old(uploading) && uploads == old(uploads)
      ensures picked.Some? ==> image == picked
      ensures picked.Some? ==> (uploading <==> Truthy(old(image)) && signedIn && !read)
      ensures picked.Some? && Truthy(old(image)) && signedIn && read ==>
        uploads == old(uploads) + [UploadTask(old(image).value, EditId(old(toEdit)))]
      ensures picked.Some? && !(Truthy(old(image)) && signedIn && read) ==> uploads == old(uploads)
    {
      PickImage(Some(posts[k].id), Some(posts[k].date), picked, read);
    }

    /**
     * The upload button: with an image held it uploads that image for the
     * current edit target; otherwise it opens the picker with nothing bound.
     * `read` is the outcome of the upload's file read.
     */
    method PressUpload(picked: Option<string>, read: bool)
      requires Valid()
      modifies this
      ensures Valid()
      ensures posts == old(posts) && saving == old(saving) && saves == old(saves)
      ensures ButtonActionFor(old(image)) == StartUpload ==>
        image == old(image) && toEdit == old(toEdit) &&
        uploading == ((signedIn && read) || old(uploading)) &&
        uploads == old(uploads) + (if signedIn && read then [UploadTask(old(image).value, EditId(old(toEdit)))] else [])
      ensures ButtonActionFor(old(image)) == OpenPicker ==>
        toEdit == Some(EditTarget(None, None)) && uploads == old(uploads) &&
        image == (if picked.Some? then picked else old(image)) &&
        uploading == (if picked.Some? then false else old(uploading))
    {
      if ButtonActionFor(image) == StartUpload {
        // a rejection here is left unhandled by the button's handler
        var rejected := UploadPhoto(image, toEdit, read);
      } else {
        PickImage(None, None, picked, read);
      }
    }

    /** The `k`-th upload reports an error: it is only logged, so `uploading` stays as it is. */
    method UploadFailed(k: nat)
      requires Valid() && k < |uploads|
      modifies this
      ensures Valid()
      ensures uploads == RemoveAt(old(uploads), k)
      ensures posts == old(posts) && image == old(image) && toEdit == old(toEdit)
      ensures uploading == old(uploading) && saving == old(saving) && saves == old(saves)
    {
      uploads := RemoveAt(uploads, k);
    }

    /** `savePostData(url, id)`: issue the write for `url`, at time `now` when a post is created. */
    method SavePostData(url: string, id: Option<string>, now: int)
      modifies this
      ensures saves == old(saves) + [SaveRequestFor(url, id, now)]
      ensures posts == old(posts) && image == old(image) && toEdit == old(toEdit)
      ensures uploading == old(uploading) && saving == old(saving) && uploads == old(uploads)
    {
      saves := saves + [SaveRequestFor(url, id, now)];
    }

    /**
     * The `k`-th upload completes: `uploading` is cleared, `saving` set, and
     * once the download URL is known (`url`, None when that lookup fails) the
     * post is saved under the edit id the upload captured.
     */
    method UploadCompleted(k: nat, url: Option<string>, now: int)
      requires Valid() && k < |uploads|
      modifies this
      ensures Valid()
      ensures !uploading && saving
      ensures uploads == RemoveAt(old(uploads), k)
      ensures saves == old(saves) + (if url.Some? then [SaveRequestFor(url.value, old(uploads)[k].editId, now)] else [])
      ensures posts == old(posts) && image == old(image) && toEdit == old(toEdit)
    {
      var task := uploads[k];
      uploads := RemoveAt(uploads, k);
      uploading := false;
      saving := true;
      if url.Some? {
        SavePostData(url.value, task.editId, now);
      }
    }

    /**
     * The `k`-th write settles. On success `saving` and `image` are cleared,
     * and an update also clears `toEdit`; a failure is only alerted.
     */
    method SaveSettled(k: nat, ok: bool)
      requires Valid() && k < |saves|
      modifies this
      ensures Valid()
      ensures saves == RemoveAt(old(saves), k)
      ensures posts == old(posts) && uploading == old(uploading) && uploads == old(uploads)
      ensures ok ==> !saving && image == None
      ensures ok && old(saves)[k].UpdatePath? ==> toEdit == None
      ensures ok && old(saves)[k].CreatePost? ==> toEdit == old(toEdit)
      ensures !ok ==> saving == old(saving) && image == old(image) && toEdit == old(toEdit)
    {
      var req := saves[k];
      saves := RemoveAt(saves, k);
      if ok {
        saving := false;
        image := None;
        if req.UpdatePath? {
          toEdit := None;
        }
      }
    }
  }
}
