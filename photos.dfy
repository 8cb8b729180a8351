/**
 * The photo workflows of the API (myapp/app/Http/Controllers/PhotoController.php)
 * over three abstract stores: the cloud blob store (file name to content), the
 * photos table and the likes join table, plus the comments table it appends to
 * and the users table it reads. The photo id that the Photo model draws at
 * random and the id of the authenticated user are parameters.
 */
module Photos {
  import opened Common

  type PhotoId = string
  type UserId = nat
  type Bytes = seq<bv8>

  const NOT_FOUND := 404

  /** A row of the photos table. */
  datatype Photo = Photo(id: PhotoId, filename: string, userId: UserId)

  /** A row of the likes join table. */
  datatype LikeRow = LikeRow(photoId: PhotoId, userId: UserId)

  datatype User = User(id: UserId, name: string)

  /** A row of the comments table. */
  datatype Comment = Comment(id: nat, photoId: PhotoId, userId: UserId, content: string)

  /** A comment as it is sent back: only `author` and `content` are visible (myapp/app/Comment.php). */
  datatype CommentView = CommentView(author: Option<User>, content: string)

  /** The exception the database raises when it refuses a write. */
  datatype DbException = DbException(message: string)

  /** How the database answers the insert of a photo row. */
  datatype SaveResult = Saved | SaveThrows(exception: DbException)

  datatype Header = Header(name: string, value: string)

  /** The body and headers of a download. */
  datatype FileResponse = FileResponse(content: Bytes, headers: seq<Header>)

  /** `["photo_id" => $id]`. */
  datatype LikeReceipt = LikeReceipt(photoId: PhotoId)

  /** How a controller action ends: a response, an `abort`, or an exception it lets through. */
  datatype Outcome<T> = Respond(status: int, body: T) | Abort(code: int) | Throw(exception: DbException)

  /** The stored file name: the photo id, a dot, then the upload's extension. */
  function FileName(id: PhotoId, extension: string): (name: string)
    ensures |name| == |id| + 1 + |extension|
    ensures name[..|id|] == id && name[|id|] == '.' && name[|id| + 1..] == extension
  {
    id + "." + extension
  }

  /** The part of a file name before its first dot. */
  function IdOf(filename: string): (id: string)
    ensures '.' !in id
    ensures id <= filename
  {
    if filename == [] || filename[0] == '.' then []
    else [filename[0]] + IdOf(filename[1..])
  }

  /** The part of a file name after its first dot, or "" if it has none. */
  function ExtensionOf(filename: string): string
  {
    if filename == [] then []
    else if filename[0] == '.' then filename[1..]
    else ExtensionOf(filename[1..])
  }

  /** A file name gives back the id and the extension it was made of, for an id without a dot. */
  lemma {:induction false} FileNameRoundTrip(id: PhotoId, extension: string)
    requires '.' !in id
    ensures IdOf(FileName(id, extension)) == id
    ensures ExtensionOf(FileName(id, extension)) == extension
  {
    var f := FileName(id, extension);
    if id != [] {
      FileNameRoundTrip(id[1..], extension);
      assert f[1..] == FileName(id[1..], extension);
    } else {
      assert f == ['.'] + extension;
    }
  }

  /** Two photos whose ids have no dot share a file name only if they share the id. */
  lemma FileNamesDistinguishIds(id1: PhotoId, ext1: string, id2: PhotoId, ext2: string)
    requires '.' !in id1 && '.' !in id2
    requires FileName(id1, ext1) == FileName(id2, ext2)
    ensures id1 == id2 && ext1 == ext2
  {
    FileNameRoundTrip(id1, ext1);
    FileNameRoundTrip(id2, ext2);
  }

  const DispositionPrefix := "attachment; filename=\""

  /**
   * The `Content-Disposition` value of a download: `attachment; filename="<name>"`,
   * with the name put between the quotes as it is, neither `"` nor `\` escaped.
   */
  function Disposition(filename: string): (value: string)
    ensures |value| == |DispositionPrefix| + |filename| + 1
    ensures value[..|DispositionPrefix|] == DispositionPrefix
    ensures value[|DispositionPrefix|..|value| - 1] == filename && value[|value| - 1] == '"'
  {
    DispositionPrefix + filename + "\""
  }

  /**
   * qdtext of section 3.2.6 of RFC 7230: HTAB, SP, `!`, `#` to `[`, `]` to `~`
   * and obs-text (0x80 to 0xFF); neither `"` nor `\` is among them.
   */
  predicate QdText(c: char)
  {
    c == '\t' || c == ' ' || c == '!' || ('#' <= c <= '[') || (']' <= c <= '~')
    || (0x80 <= c as int <= 0xFF)
  }

  /** The characters a quoted-pair of section 3.2.6 of RFC 7230 may escape: HTAB, SP, VCHAR, obs-text. */
  predicate QuotedPairText(c: char)
  {
    c == '\t' || (' ' <= c <= '~') || (0x80 <= c as int <= 0xFF)
  }

  /** A name that a quoted-string can carry without any escape. */
  predicate Quotable(name: string)
  {
    forall i | 0 <= i < |name| :: QdText(name[i])
  }

  /**
   * The content of a quoted-string (section 3.2.6 of RFC 7230, which section 4.1
   * of RFC 6266 uses for `filename`), read from just after its opening quote: up
   * to the first `"` that is not escaped, with each `\x` read as `x`. None when
   * the string is not closed or holds a character the grammar does not allow.
   */
  function QuotedContent(s: string): Option<string>
    decreases |s|
  {
    if |s| == 0 then None
    else if s[0] == '"' then Some("")
    else if s[0] == '\\' then
      if |s| < 2 || !QuotedPairText(s[1]) then None
      else match QuotedContent(s[2..])
        case None => None
        case Some(rest) => Some([s[1]] + rest)
    else if !QdText(s[0]) then None
    else match QuotedContent(s[1..])
      case None => None
      case Some(rest) => Some([s[0]] + rest)
  }

  /** The file name a recipient reads from a `Content-Disposition: attachment; filename="..."` value. */
  function DispositionFileName(value: string): Option<string>
  {
    if |value| >= |DispositionPrefix| && value[..|DispositionPrefix|] == DispositionPrefix
    then QuotedContent(value[|DispositionPrefix|..])
    else None
  }

  /** A quotable name, closed by a quote, reads back unchanged, whatever follows. */
  lemma {:induction false} QuotedContentOfPlainName(name: string, rest: string)
    requires Quotable(name)
    ensures QuotedContent(name + "\"" + rest) == Some(name)
  {
    if name == [] {
      assert (name + "\"" + rest)[0] == '"';
    } else {
      var s := name + "\"" + rest;
      assert s[0] == name[0] && QdText(name[0]);
      assert s[1..] == name[1..] + "\"" + rest;
      assert Quotable(name[1..]) by {
        forall i | 0 <= i < |name[1..]| ensures QdText(name[1..][i]) {
          assert name[1..][i] == name[i + 1];
        }
      }
      QuotedContentOfPlainName(name[1..], rest);
      assert QuotedContent(s) == Some([s[0]] + name[1..]);
      assert [name[0]] + name[1..] == name;
    }
  }

  /**
   * A recipient reading the download's header gets the stored file name back, as
   * long as every character of the name is qdtext: the header escapes nothing.
   */
  lemma DispositionRoundTrip(filename: string)
    requires Quotable(filename)
    ensures DispositionFileName(Disposition(filename)) == Some(filename)
  {
    var v := Disposition(filename);
    assert v[|DispositionPrefix|..] == filename + "\"" + [];
    QuotedContentOfPlainName(filename, []);
  }

  /** A name with a quote in it is cut short: `a"; size="1` is read as `a`. */
  lemma DispositionCutAtQuote()
    ensures DispositionFileName(Disposition("a\"; size=\"1")) == Some("a")
  {
    var v := Disposition("a\"; size=\"1");
    assert v[|DispositionPrefix|..] == "a" + "\"" + "; size=\"1\"";
    assert Quotable("a") by { assert "a"[0] == 'a'; }
    QuotedContentOfPlainName("a", "; size=\"1\"");
  }

  /** A name with a line break in it is no quoted-string at all: `a\r\nX-Evil: 1` is refused. */
  lemma DispositionRefusesLineBreak()
    ensures DispositionFileName(Disposition("a\r\nX-Evil: 1")) == None
  {
    var v := Disposition("a\r\nX-Evil: 1");
    var q := v[|DispositionPrefix|..];
    assert q == "a\r\nX-Evil: 1\"";
    assert q[0] == 'a' && q[1..][0] == '\r';
    assert QuotedContent(q[1..]) == None;
  }

  /** An id and an extension that are quotable give a file name the header carries unchanged. */
  lemma FileNameQuotable(id: PhotoId, extension: string)
    requires Quotable(id) && Quotable(extension)
    ensures DispositionFileName(Disposition(FileName(id, extension))) == Some(FileName(id, extension))
  {
    var name := FileName(id, extension);
    forall i | 0 <= i < |name| ensures QdText(name[i]) {
      if i < |id| {
        assert name[i] == id[i];
      } else if i > |id| {
        assert name[i] == extension[i - |id| - 1];
      }
    }
    DispositionRoundTrip(name);
  }

  /** The likes table after `detach($userId)` on a photo: every row of that pair is gone. */
  function Detached(likes: multiset<LikeRow>, row: LikeRow): (r: multiset<LikeRow>)
    ensures r[row] == 0
    ensures forall other | other != row :: r[other] == likes[other]
  {
    likes[row := 0]
  }

  /** The likes table after `detach` then `attach`: exactly one row of the pair, others untouched. */
  function Liked(likes: multiset<LikeRow>, row: LikeRow): (r: multiset<LikeRow>)
    ensures r[row] == 1
    ensures forall other | other != row :: r[other] == likes[other]
  {
    Detached(likes, row) + multiset{row}
  }

  /** Liking twice leaves the table as liking once. */
  lemma LikeIdempotent(likes: multiset<LikeRow>, row: LikeRow)
    ensures Liked(Liked(likes, row), row) == Liked(likes, row)
  {
  }

  /** Unliking twice leaves the table as unliking once. */
  lemma UnlikeIdempotent(likes: multiset<LikeRow>, row: LikeRow)
    ensures Detached(Detached(likes, row), row) == Detached(likes, row)
  {
  }

  /** Unliking a photo one has not liked changes nothing. */
  lemma UnlikeWithoutLikeIsNoop(likes: multiset<LikeRow>, row: LikeRow)
    requires row !in likes
    ensures Detached(likes, row) == likes
  {
  }

  /** Like, unlike, like: the table ends as after the last like, with one row of the pair. */
  lemma LikeUnlikeLike(likes: multiset<LikeRow>, row: LikeRow)
    ensures Liked(Detached(Liked(likes, row), row), row) == Liked(likes, row)
    ensures Liked(Detached(Liked(likes, row), row), row)[row] == 1
  {
  }

  /**
   * What the workflows keep true of the stores: each photo row is stored under
   * its own id, its file name starts with that id, and its blob exists; there is
   * at most one like per photo and user; likes and comments point at existing
   * photos; comment ids are below the next auto-increment value.
   */
  ghost predicate StoresValid(blobs: map<string, Bytes>, photos: map<PhotoId, Photo>,
                              likes: multiset<LikeRow>, comments: map<nat, Comment>, nextCommentId: nat)
  {
    && (forall id | id in photos ::
          photos[id].id == id && IdOf(photos[id].filename) == id && photos[id].filename in blobs)
    && (forall row :: likes[row] <= 1)
    && (forall row | row in likes :: row.photoId in photos)
    && (forall c | c in comments :: comments[c].id == c && c < nextCommentId && comments[c].photoId in photos)
  }

  /** Storing a new photo's blob and row keeps the stores valid. */
  lemma InsertPhotoKeepsValid(blobs: map<string, Bytes>, photos: map<PhotoId, Photo>,
                              likes: multiset<LikeRow>, comments: map<nat, Comment>, nextCommentId: nat,
                              photo: Photo, content: Bytes)
    requires StoresValid(blobs, photos, likes, comments, nextCommentId)
    requires photo.id !in photos && IdOf(photo.filename) == photo.id
    ensures StoresValid(blobs[photo.filename := content], photos[photo.id := photo], likes, comments, nextCommentId)
  {
  }

  /**
   * Deleting a blob that no photo row names keeps the stores valid; an id without
   * a dot that no row has gives such a name.
   */
  lemma DeleteUnusedBlobKeepsValid(blobs: map<string, Bytes>, photos: map<PhotoId, Photo>,
                                   likes: multiset<LikeRow>, comments: map<nat, Comment>, nextCommentId: nat,
                                   id: PhotoId, extension: string)
    requires StoresValid(blobs, photos, likes, comments, nextCommentId)
    requires id !in photos && '.' !in id
    ensures forall p | p in photos :: photos[p].filename != FileName(id, extension)
    ensures StoresValid(blobs - {FileName(id, extension)}, photos, likes, comments, nextCommentId)
  {
    FileNameRoundTrip(id, extension);
  }

  /**
   * The controller's stores. `blobs` is the cloud disk, `photos`, `likes` and
   * `comments` the tables, `nextCommentId` the comments table's auto-increment
   * counter, `users` the users table, which no action here changes.
   */
  class PhotoController {
    var blobs: map<string, Bytes>
    var photos: map<PhotoId, Photo>
    var likes: multiset<LikeRow>
    var comments: map<nat, Comment>
    var nextCommentId: nat
    var users: map<UserId, User>

    ghost predicate Valid()
      reads this
    {
      StoresValid(blobs, photos, likes, comments, nextCommentId)
    }

    constructor (users: map<UserId, User>)
      ensures Valid()
      ensures blobs == map[] && photos == map[] && likes == multiset{} && comments == map[]
      ensures this.users == users
    {
      blobs := map[];
      photos := map[];
      likes := multiset{};
      comments := map[];
      nextCommentId := 1;
      this.users := users;
    }

    /** `show`: the photo with that id, or 404. */
    method Show(id: PhotoId) returns (r: Outcome<Photo>)
      ensures id in photos ==> r == Respond(OK, photos[id])
      ensures id !in photos ==> r == Abort(NOT_FOUND)
    {
      if id in photos {
        r := Respond(OK, photos[id]);
      } else {
        r := Abort(NOT_FOUND);
      }
    }

    /**
     * `create`: the file is stored under id + "." + extension, then the row is
     * inserted in a transaction owned by the user. If the insert throws, the
     * transaction is rolled back, the stored file deleted and the exception
     * passed on.
     */
    method Create(id: PhotoId, extension: string, content: Bytes, user: UserId, save: SaveResult)
      returns (r: Outcome<Photo>)
      requires Valid()
      requires id !in photos && '.' !in id
      modifies this`blobs, this`photos
      ensures Valid()
      ensures save.Saved? ==>
        var photo := Photo(id, FileName(id, extension), user);
        && r == Respond(CREATED, photo)
        && photos == old(photos)[id := photo]
        && blobs == old(blobs)[photo.filename := content]
      ensures save.SaveThrows? ==>
        && r == Throw(save.exception)
        && photos == old(photos)
        && blobs == old(blobs) - {FileName(id, extension)}
        && forall p | p in photos :: photos[p].filename != FileName(id, extension)
    {
      var photo := Photo(id, FileName(id, extension), user);
      FileNameRoundTrip(id, extension);
      DeleteUnusedBlobKeepsValid(blobs, photos, likes, comments, nextCommentId, id, extension);
      InsertPhotoKeepsValid(blobs, photos, likes, comments, nextCommentId, photo, content);
      blobs := blobs[photo.filename := content];
      // DB::beginTransaction(): what a rollback returns to.
      var committed := photos;
      match save
      case Saved =>
        photos := photos[id := photo];
        r := Respond(CREATED, photo);
      case SaveThrows(e) =>
        // DB::rollBack(), then the uploaded file is deleted and the exception rethrown.
        photos := committed;
        blobs := blobs - {photo.filename};
        assert blobs == old(blobs) - {photo.filename};
        r := Throw(e);
    }

    /** `download`: 404 without the photo or its file; otherwise the file as an attachment. */
    method Download(id: PhotoId) returns (r: Outcome<FileResponse>)
      ensures id !in photos ==> r == Abort(NOT_FOUND)
      ensures id in photos && photos[id].filename !in blobs ==> r == Abort(NOT_FOUND)
      ensures id in photos && photos[id].filename in blobs ==>
        var name := photos[id].filename;
        && r.Respond? && r.status == OK
        && r.body.content == blobs[name]
        && r.body.headers == [Header("Content-Type", "application/octet-stream"),
                              Header("Content-Disposition", Disposition(name))]
        && (Quotable(name) ==> DispositionFileName(r.body.headers[1].value) == Some(name))
    {
      if id !in photos {
        return Abort(NOT_FOUND);
      }
      var name := photos[id].filename;
      if name !in blobs {
        return Abort(NOT_FOUND);
      }
      var headers := [Header("Content-Type", "application/octet-stream"),
                      Header("Content-Disposition", Disposition(name))];
      if Quotable(name) {
        DispositionRoundTrip(name);
      }
      r := Respond(OK, FileResponse(blobs[name], headers));
    }

    /** The comment with that id and its author, as `where('id', ...)->with('author')->first()` reads it. */
    method FindComment(commentId: nat) returns (found: Option<CommentView>)
      ensures commentId !in comments ==> found == None
      ensures commentId in comments ==>
        var c := comments[commentId];
        found == Some(CommentView(if c.userId in users then Some(users[c.userId]) else None, c.content))
    {
      if commentId !in comments {
        return None;
      }
      var c := comments[commentId];
      var author := if c.userId in users then Some(users[c.userId]) else None;
      found := Some(CommentView(author, c.content));
    }

    /** `addComment`: 404 without the photo; otherwise the comment is saved, read back with its author and sent with 201. */
    method AddComment(photoId: PhotoId, user: UserId, content: string) returns (r: Outcome<Option<CommentView>>)
      requires Valid()
      modifies this`comments, this`nextCommentId
      ensures Valid()
      ensures photoId !in photos ==>
        r == Abort(NOT_FOUND) && comments == old(comments) && nextCommentId == old(nextCommentId)
      ensures photoId in photos ==>
        && comments == old(comments)[old(nextCommentId) := Comment(old(nextCommentId), photoId, user, content)]
        && old(nextCommentId) !in old(comments)
        && nextCommentId == old(nextCommentId) + 1
        && r == Respond(CREATED, Some(CommentView(if user in users then Some(users[user]) else None, content)))
    {
      if photoId !in photos {
        return Abort(NOT_FOUND);
      }
      var comment := Comment(nextCommentId, photoId, user, content);
      comments := comments[comment.id := comment];
      nextCommentId := nextCommentId + 1;
      var fetched := FindComment(comment.id);
      r := Respond(CREATED, fetched);
    }

    /** `like`: 404 without the photo; otherwise the user's like is detached then attached. */
    method Like(id: PhotoId, user: UserId) returns (r: Outcome<LikeReceipt>)
      requires Valid()
      modifies this`likes
      ensures Valid()
      ensures id !in photos ==> r == Abort(NOT_FOUND) && likes == old(likes)
      ensures id in photos ==> r == Respond(OK, LikeReceipt(id)) && likes == Liked(old(likes), LikeRow(id, user))
    {
      if id !in photos {
        return Abort(NOT_FOUND);
      }
      var row := LikeRow(id, user);
      likes := Detached(likes, row);
      likes := likes + multiset{row};
      r := Respond(OK, LikeReceipt(id));
    }

    /** `unlike`: 404 without the photo; otherwise the user's like is detached. */
    method Unlike(id: PhotoId, user: UserId) returns (r: Outcome<LikeReceipt>)
      requires Valid()
      modifies this`likes
      ensures Valid()
      ensures id !in photos ==> r == Abort(NOT_FOUND) && likes == old(likes)
      ensures id in photos ==> r == Respond(OK, LikeReceipt(id)) && likes == Detached(old(likes), LikeRow(id, user))
    {
      if id !in photos {
        return Abort(NOT_FOUND);
      }
      likes := Detached(likes, LikeRow(id, user));
      r := Respond(OK, LikeReceipt(id));
    }
  }
}
