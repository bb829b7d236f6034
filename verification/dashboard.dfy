/**
 * The signed-in artist's dashboard (src/components/ArtistDashboard.jsx): the
 * component's seven state fields, the backing tables it reads and writes, and
 * the handlers that load the profile and posts, save the profile, add a post
 * and delete a post.
 *
 * Every remote call is a parameter: a read's reply (`Reply`), a write's error
 * (`Option<string>`, `None` for success) and the identifiers and timestamps the
 * store assigns. The payload of a successful read is tied to the tables by the
 * "honest reply" predicates below, which is what the backend's filters and
 * `.order(...)` promise.
 */
module Dashboard {
  import opened Wrappers
  import opened Records

  /** The backend's code for "a single row was requested and none matched". */
  const NoRowsCode: string := "PGRST116"

  // ---------------------------------------------------------------------
  // Form state
  // ---------------------------------------------------------------------

  /**
   * The `average_price` form field. A load copies the stored number into it
   * (`artistData.average_price || ''`), while typing stores the input's text,
   * so it holds either a number or a string.
   */
  datatype PriceField = PriceText(text: string) | PriceNumber(amount: real)

  /** JavaScript truthiness of the price field: a non-empty string or a non-zero number. */
  predicate PriceGiven(f: PriceField)
  {
    match f
    case PriceText(t) => t != ""
    case PriceNumber(v) => v != 0.0
  }

  datatype ProfileForm = ProfileForm(
    name: string,
    bio: string,
    location: string,
    averagePrice: PriceField,
    instagramUrl: string,
    profileImage: string)

  /** The profile form's initial value: every field empty. */
  const BlankProfileForm := ProfileForm("", "", "", PriceText(""), "", "")

  /** The fields of the profile form, one per input. */
  datatype ProfileInput = NameInput | BioInput | LocationInput | PriceInput | InstagramInput | ImageInput

  datatype PostForm = PostForm(imageUrl: string, caption: string)

  /** The new-post form's initial and reset value. */
  const BlankPostForm := PostForm("", "")

  datatype PostInput = ImageUrlInput | CaptionInput

  /** `x || ''` on a nullable text column. */
  function TextOrEmpty(o: Option<string>): (t: string)
    ensures o.Some? ==> t == o.value
    ensures o.None? ==> t == ""
  {
    OrElse(o, "")
  }

  /** `artistData.average_price || ''`: null and 0 both load as the empty field. */
  function LoadedPrice(p: Option<real>): (f: PriceField)
    ensures PriceGiven(f) <==> p.Some? && p.value != 0.0
    ensures PriceGiven(f) ==> f == PriceNumber(p.value)
    ensures !PriceGiven(f) ==> f == PriceText("")
  {
    if p.Some? && p.value != 0.0 then PriceNumber(p.value) else PriceText("")
  }

  /** The form a loaded artist fills in, field by field, falsy fields as `''`. */
  function LoadedForm(a: Artist): (f: ProfileForm)
    ensures f.name == a.name
    ensures f.bio == TextOrEmpty(a.bio) && f.location == TextOrEmpty(a.location)
    ensures f.instagramUrl == TextOrEmpty(a.instagramUrl) && f.profileImage == TextOrEmpty(a.profileImage)
    ensures PriceGiven(f.averagePrice) <==> a.averagePrice.Some? && a.averagePrice.value != 0.0
    ensures PriceGiven(f.averagePrice) ==> f.averagePrice == PriceNumber(a.averagePrice.value)
    ensures !PriceGiven(f.averagePrice) ==> f.averagePrice == PriceText("")
  {
    ProfileForm(a.name, TextOrEmpty(a.bio), TextOrEmpty(a.location), LoadedPrice(a.averagePrice),
                TextOrEmpty(a.instagramUrl), TextOrEmpty(a.profileImage))
  }

  // ---------------------------------------------------------------------
  // What the profile submit writes
  // ---------------------------------------------------------------------

  /** The column values the profile submit sends, for an update and an insert alike. */
  datatype ProfileFields = ProfileFields(
    name: string,
    bio: string,
    location: string,
    averagePrice: Option<real>,
    instagramUrl: string,
    profileImage: string)

  /**
   * `average_price ? parseFloat(average_price) : null`. `parsed` is what
   * `parseFloat` gives for the field's text (`None` for NaN, which the JSON
   * body carries as null); on a number `parseFloat` gives the number back.
   */
  function WrittenPrice(f: PriceField, parsed: Option<real>): (r: Option<real>)
    ensures r.Some? ==> PriceGiven(f)
    ensures f.PriceNumber? && PriceGiven(f) ==> r == Some(f.amount)
  {
    if !PriceGiven(f) then None
    else match f
      case PriceNumber(v) => Some(v)
      case PriceText(_) => parsed
  }

  /**
   * The price column is written as null exactly when the field is empty (the
   * empty string or 0) or its text does not parse; otherwise it is the number
   * the field holds or the one parsed from its text.
   */
  lemma WrittenPriceIsNullIffEmpty(f: PriceField, parsed: Option<real>)
    ensures WrittenPrice(f, parsed).None? <==> !PriceGiven(f) || (f.PriceText? && parsed.None?)
    ensures PriceGiven(f) && f.PriceText? ==> WrittenPrice(f, parsed) == parsed
    ensures PriceGiven(f) && f.PriceNumber? ==> WrittenPrice(f, parsed) == Some(f.amount)
  {
  }

  /**
   * The column object of an update or insert: the form's text fields as typed
   * (an empty name included) and the price as `WrittenPrice` gives it.
   */
  function FieldsOf(form: ProfileForm, parsed: Option<real>): (w: ProfileFields)
    ensures w.name == form.name && w.bio == form.bio && w.location == form.location
    ensures w.instagramUrl == form.instagramUrl && w.profileImage == form.profileImage
    ensures w.averagePrice.None? <==> !PriceGiven(form.averagePrice) || (form.averagePrice.PriceText? && parsed.None?)
    ensures w.averagePrice.Some? ==>
      w.averagePrice == if form.averagePrice.PriceNumber? then Some(form.averagePrice.amount) else parsed
  {
    ProfileFields(form.name, form.bio, form.location, WrittenPrice(form.averagePrice, parsed),
                  form.instagramUrl, form.profileImage)
  }

  /** A stored row after `.update(fields).eq('id', row.id)`. */
  function WithFields(row: Artist, w: ProfileFields): (r: Artist)
    ensures r.id == row.id && r.userId == row.userId && r.createdAt == row.createdAt
    ensures r.name == w.name && r.bio == Some(w.bio) && r.location == Some(w.location)
    ensures r.averagePrice == w.averagePrice
    ensures r.instagramUrl == Some(w.instagramUrl) && r.profileImage == Some(w.profileImage)
  {
    row.(name := w.name, bio := Some(w.bio), location := Some(w.location), averagePrice := w.averagePrice,
         instagramUrl := Some(w.instagramUrl), profileImage := Some(w.profileImage))
  }

  /** The row `.insert({ user_id, ...fields })` creates, with the id and time the store assigns. */
  function NewArtistRow(id: ArtistId, user: UserId, w: ProfileFields, now: int): (r: Artist)
    ensures r.id == id && r.userId == user && r.createdAt == now
    ensures r.name == w.name && r.bio == Some(w.bio) && r.location == Some(w.location)
    ensures r.averagePrice == w.averagePrice
    ensures r.instagramUrl == Some(w.instagramUrl) && r.profileImage == Some(w.profileImage)
  {
    Artist(id, user, w.name, Some(w.bio), Some(w.location), w.averagePrice,
           Some(w.instagramUrl), Some(w.profileImage), now)
  }

  /**
   * Saving the profile form and loading the saved row back gives the same
   * form, except for the price field: an empty field comes back empty, a
   * typed price comes back as the number `parseFloat` made of it (empty when
   * that is NaN or 0), and a loaded non-zero number comes back unchanged.
   */
  lemma SavedProfileLoadsBack(row: Artist, form: ProfileForm, parsed: Option<real>)
    ensures var back := LoadedForm(WithFields(row, FieldsOf(form, parsed)));
      && back.(averagePrice := form.averagePrice) == form
      && (!PriceGiven(form.averagePrice) ==> back.averagePrice == PriceText(""))
      && (PriceGiven(form.averagePrice) && form.averagePrice.PriceNumber? ==> back == form)
      && (PriceGiven(form.averagePrice) && form.averagePrice.PriceText? ==> back.averagePrice == LoadedPrice(parsed))
  {
  }

  /**
   * A stored price of 0 loads as the empty field (`0 || ''`), so saving the
   * profile again without touching the price writes null: the zero is lost.
   */
  lemma ZeroPriceIsCleared(row: Artist, parsed: Option<real>)
    requires row.averagePrice == Some(0.0)
    ensures LoadedForm(row).averagePrice == PriceText("")
    ensures FieldsOf(LoadedForm(row), parsed).averagePrice == None
  {
  }

  // ---------------------------------------------------------------------
  // `image_url.trim()`
  // ---------------------------------------------------------------------

  /** The characters `String.prototype.trim` removes: white space and line terminators. */
  predicate IsTrimmable(c: char)
  {
    || c == '\t' || c == '\n' || c == '\r' || c == '\U{000B}' || c == '\U{000C}' || c == ' '
    || c == '\U{00A0}' || c == '\U{1680}' || ('\U{2000}' <= c <= '\U{200A}')
    || c == '\U{2028}' || c == '\U{2029}' || c == '\U{202F}' || c == '\U{205F}'
    || c == '\U{3000}' || c == '\U{FEFF}'
  }

  /** Removes leading trimmable characters. */
  function TrimStart(s: string): (r: string)
    ensures |r| <= |s| && r == s[|s| - |r|..]
    ensures r == [] || !IsTrimmable(r[0])
    ensures forall i :: 0 <= i < |s| - |r| ==> IsTrimmable(s[i])
  {
    if s != [] && IsTrimmable(s[0]) then TrimStart(s[1..]) else s
  }

  /** Removes trailing trimmable characters. */
  function TrimEnd(s: string): (r: string)
    ensures |r| <= |s| && r == s[..|r|]
    ensures r == [] || !IsTrimmable(r[|r| - 1])
    ensures forall i :: |r| <= i < |s| ==> IsTrimmable(s[i])
  {
    if s != [] && IsTrimmable(s[|s| - 1]) then TrimEnd(s[..|s| - 1]) else s
  }

  /**
   * `r` is the stretch of `s` that starts at `i`, and everything outside it
   * is white space.
   */
  ghost predicate StrippedAt(s: string, r: string, i: int)
  {
    && 0 <= i <= |s| - |r|
    && (forall j :: 0 <= j < |r| ==> r[j] == s[i + j])
    && (forall k :: 0 <= k < i ==> IsTrimmable(s[k]))
    && (forall k :: i + |r| <= k < |s| ==> IsTrimmable(s[k]))
  }

  /**
   * Removing white space from the front of `s` (giving `t`) and then from the
   * back of `t` (giving `r`) leaves `r` as a stretch of `s` with only white
   * space around it.
   */
  lemma StrippedFromBothEnds(s: string, t: string, r: string)
    requires |t| <= |s| && t == s[|s| - |t|..]
    requires forall i :: 0 <= i < |s| - |t| ==> IsTrimmable(s[i])
    requires |r| <= |t| && r == t[..|r|]
    requires forall i :: |r| <= i < |t| ==> IsTrimmable(t[i])
    ensures StrippedAt(s, r, |s| - |t|)
  {
  }

  /**
   * `s.trim()`: a stretch of `s` with white space at neither end, and only
   * white space outside it.
   */
  function Trim(s: string): (r: string)
    ensures |r| <= |s|
    ensures r == [] || (!IsTrimmable(r[0]) && !IsTrimmable(r[|r| - 1]))
    ensures exists i :: StrippedAt(s, r, i)
  {
    var t := TrimStart(s);
    StrippedFromBothEnds(s, t, TrimEnd(t));
    TrimEnd(t)
  }

  /** Every character of `s` is white space (the empty string included). */
  predicate IsBlank(s: string)
  {
    forall i | 0 <= i < |s| :: IsTrimmable(s[i])
  }

  /** `!s.trim()` holds exactly when every character of `s` is white space. */
  lemma TrimIsEmptyIffBlank(s: string)
    ensures Trim(s) == "" <==> IsBlank(s)
  {
  }

  // ---------------------------------------------------------------------
  // The backing tables and the replies they give
  // ---------------------------------------------------------------------

  /**
   * The tables' own guarantees: rows are keyed by their id, a post's
   * `artist_id` names an artist, and an account owns at most one artist.
   */
  ghost predicate StoreValid(artists: map<ArtistId, Artist>, posts: map<PostId, Post>)
  {
    && (forall id | id in artists :: artists[id].id == id)
    && (forall id | id in posts :: posts[id].id == id && posts[id].artistId in artists)
    && (forall a, b | a in artists && b in artists :: artists[a].userId == artists[b].userId ==> a == b)
  }

  lemma PostInsertKeepsStoreValid(artists: map<ArtistId, Artist>, posts: map<PostId, Post>, p: Post)
    requires StoreValid(artists, posts)
    requires p.artistId in artists
    ensures StoreValid(artists, posts[p.id := p])
  {
  }

  /** No artist row belongs to `user`. */
  ghost predicate NoArtistFor(artists: map<ArtistId, Artist>, user: UserId)
  {
    forall id | id in artists :: artists[id].userId != user
  }

  /**
   * `.from('artists').select('*').eq('user_id', user).single()`: a row it
   * returns is the stored row of that account, and the no-rows code means the
   * account has none. Any other error may happen at any time.
   */
  ghost predicate HonestLookup(artists: map<ArtistId, Artist>, user: UserId, reply: Reply<Artist>)
  {
    && (reply.Ok? ==> reply.value.id in artists && artists[reply.value.id] == reply.value && reply.value.userId == user)
    && (reply == Err(NoRowsCode) ==> NoArtistFor(artists, user))
  }

  /**
   * `ps` lists the stored posts of artist `aid`, each once, newest first:
   * what `.eq('artist_id', aid).order('created_at', { ascending: false })` returns.
   */
  ghost predicate ListsPostsOf(posts: map<PostId, Post>, aid: ArtistId, ps: seq<Post>)
  {
    && NewestFirst(ps)
    && (forall i | 0 <= i < |ps| :: ps[i].id in posts && posts[ps[i].id] == ps[i] && ps[i].artistId == aid)
    && (forall i, j | 0 <= i < j < |ps| :: ps[i].id != ps[j].id)
    && (forall id | id in posts && posts[id].artistId == aid :: posts[id] in ps)
  }

  ghost predicate HonestPosts(posts: map<PostId, Post>, aid: ArtistId, reply: Reply<seq<Post>>)
  {
    reply.Ok? ==> ListsPostsOf(posts, aid, reply.value)
  }

  /** How the artist lookup of a fetch ended. */
  datatype Lookup = Found(artist: Artist) | NoArtist | LookupFailed

  /**
   * The no-rows code is expected absence (first-time setup); every other
   * error is a failure.
   */
  function ClassifyLookup(reply: Reply<Artist>): (l: Lookup)
    ensures l.Found? <==> reply.Ok?
    ensures l.Found? ==> l.artist == reply.value
    ensures l.NoArtist? <==> reply == Err(NoRowsCode)
  {
    match reply
    case Ok(a) => Found(a)
    case Err(code) => if code == NoRowsCode then NoArtist else LookupFailed
  }

  /** A write sent to the backend. */
  datatype Request =
    | UpdateArtistRow(id: ArtistId, fields: ProfileFields)
    | InsertArtistRow(userId: UserId, fields: ProfileFields)
    | InsertPostRow(artistId: ArtistId, imageUrl: string, caption: string)
    | DeletePostRow(postId: PostId)

  // ---------------------------------------------------------------------
  // The component
  // ---------------------------------------------------------------------

  class ArtistDashboard {
    /** The session's account, from the auth context; `None` when signed out. */
    const session: Option<UserId>

    var artist: Option<Artist>
    var posts: seq<Post>
    var loading: bool
    var editing: bool
    var newPost: PostForm
    var uploading: bool
    var profileForm: ProfileForm

    /** The `artists` table, by id. */
    var storedArtists: map<ArtistId, Artist>
    /** The `posts` table, by id. */
    var storedPosts: map<PostId, Post>

    /**
     * The tables keep their guarantees; a loaded artist is the session's own
     * stored artist; the posts on display are newest-first and all belong to
     * the loaded artist (none are shown before an artist is loaded).
     */
    ghost predicate Valid()
      reads this
    {
      && StoreValid(storedArtists, storedPosts)
      && (artist.Some? ==>
            && session.Some?
            && artist.value.userId == session.value
            && artist.value.id in storedArtists
            && storedArtists[artist.value.id].userId == session.value)
      && NewestFirst(posts)
      && (artist.None? ==> posts == [])
      && (artist.Some? ==> forall i | 0 <= i < |posts| :: posts[i].artistId == artist.value.id)
    }

    /** The component as mounted: no artist, no posts, loading, blank forms. */
    constructor (session: Option<UserId>, artists: map<ArtistId, Artist>, posts: map<PostId, Post>)
      requires StoreValid(artists, posts)
      ensures Valid()
      ensures this.session == session && storedArtists == artists && storedPosts == posts
      ensures artist == None && this.posts == [] && loading && !editing && !uploading
      ensures newPost == BlankPostForm && profileForm == BlankProfileForm
    {
      this.session := session;
      artist := None;
      this.posts := [];
      loading := true;
      editing := false;
      newPost := BlankPostForm;
      uploading := false;
      profileForm := BlankProfileForm;
      storedArtists := artists;
      storedPosts := posts;
    }

    /**
     * `fetchArtistData`: looks up the session's artist and, when a row comes
     * back, loads it into `artist` and the profile form and then reads its
     * posts. The no-rows code and any other error both leave `artist` and
     * `posts` alone; a posts error leaves `posts` alone; without a session the
     * lookup throws and is caught. `loading` is false afterwards on every path.
     */
    method FetchArtistData(artistReply: Reply<Artist>, postsReply: Reply<seq<Post>>)
      returns (lookup: Lookup, postsFetched: bool)
      requires Valid()
      requires session.Some? ==> HonestLookup(storedArtists, session.value, artistReply)
      requires artistReply.Ok? ==> HonestPosts(storedPosts, artistReply.value.id, postsReply)
      modifies this`artist, this`profileForm, this`posts, this`loading
      ensures Valid()
      ensures !loading
      ensures lookup == (if session.Some? then ClassifyLookup(artistReply) else LookupFailed)
      ensures lookup.NoArtist? ==> NoArtistFor(storedArtists, session.value)
      ensures postsFetched <==> lookup.Found?
      ensures lookup.Found? ==>
        && artist == Some(lookup.artist)
        && lookup.artist == storedArtists[lookup.artist.id]
        && profileForm == LoadedForm(lookup.artist)
      ensures !lookup.Found? ==> artist == old(artist) && profileForm == old(profileForm)
      ensures posts == if postsFetched && postsReply.Ok? then postsReply.value else old(posts)
    {
      postsFetched := false;
      if session.None? {
        lookup := LookupFailed;
      } else {
        lookup := ClassifyLookup(artistReply);
        if lookup.Found? {
          var a := lookup.artist;
          assert artist.Some? ==> artist.value.id == a.id;
          artist := Some(a);
          profileForm := LoadedForm(a);
          postsFetched := true;
          if postsReply.Ok? {
            posts := postsReply.value;
          }
        }
      }
      loading := false;
    }

    /**
     * The mount effect: the fetch runs only when there is a session, and then
     * has the effect `FetchArtistData` states; `lookup` is how it ended.
     */
    method Mount(artistReply: Reply<Artist>, postsReply: Reply<seq<Post>>) returns (fetched: bool, lookup: Lookup)
      requires Valid()
      requires session.Some? ==> HonestLookup(storedArtists, session.value, artistReply)
      requires artistReply.Ok? ==> HonestPosts(storedPosts, artistReply.value.id, postsReply)
      modifies this`artist, this`profileForm, this`posts, this`loading
      ensures Valid()
      ensures fetched <==> session.Some?
      ensures !fetched ==> unchanged(this)
      ensures fetched ==>
        && !loading
        && lookup == ClassifyLookup(artistReply)
        && (lookup.Found? ==> artist == Some(lookup.artist) && profileForm == LoadedForm(lookup.artist))
        && (!lookup.Found? ==> artist == old(artist) && profileForm == old(profileForm))
        && posts == if lookup.Found? && postsReply.Ok? then postsReply.value else old(posts)
    {
      fetched := session.Some?;
      lookup := LookupFailed;
      if fetched {
        var postsFetched;
        lookup, postsFetched := FetchArtistData(artistReply, postsReply);
      }
    }

    /**
     * `handleProfileSubmit`: with an artist loaded, sends one update keyed by
     * its id; without one, inserts a row owned by the session's account and
     * adopts the returned row (reading the account of a missing session
     * throws before anything is sent). On success editing ends and a re-fetch
     * follows; on an error neither happens. `uploading` is false afterwards.
     * The form's name is sent as it is: only the browser's `required`
     * attribute checks it.
     */
    method SubmitProfile(parsedPrice: Option<real>, writeError: Option<string>, newId: ArtistId, now: int)
      returns (sent: Option<Request>, refetch: bool)
      requires Valid()
      requires artist.None? && session.Some? && writeError.None? ==>
        newId !in storedArtists && NoArtistFor(storedArtists, session.value)
      modifies this`artist, this`editing, this`uploading, this`storedArtists
      ensures Valid()
      ensures !uploading
      ensures sent == (
        var fields := FieldsOf(profileForm, parsedPrice);
        if old(artist).Some? then Some(UpdateArtistRow(old(artist).value.id, fields))
        else if session.Some? then Some(InsertArtistRow(session.value, fields))
        else None)
      ensures refetch <==> sent.Some? && writeError.None?
      ensures editing == (if refetch then false else old(editing))
      ensures !refetch ==> artist == old(artist) && storedArtists == old(storedArtists)
      ensures refetch && old(artist).Some? ==>
        var id := old(artist).value.id;
        && artist == old(artist)
        && storedArtists == old(storedArtists)[id := WithFields(old(storedArtists)[id], FieldsOf(profileForm, parsedPrice))]
      ensures refetch && old(artist).None? ==>
        var row := NewArtistRow(newId, session.value, FieldsOf(profileForm, parsedPrice), now);
        && artist == Some(row)
        && storedArtists == old(storedArtists)[newId := row]
    {
      uploading := true;
      var fields := FieldsOf(profileForm, parsedPrice);
      refetch := false;
      if artist.Some? {
        var id := artist.value.id;
        sent := Some(UpdateArtistRow(id, fields));
        if writeError.None? {
          storedArtists := storedArtists[id := WithFields(storedArtists[id], fields)];
          editing := false;
          refetch := true;
        }
      } else if session.None? {
        sent := None;
      } else {
        sent := Some(InsertArtistRow(session.value, fields));
        if writeError.None? {
          var row := NewArtistRow(newId, session.value, fields, now);
          storedArtists := storedArtists[newId := row];
          artist := Some(row);
          editing := false;
          refetch := true;
        }
      }
      uploading := false;
    }

    /**
     * `handleNewPost`: without an artist, or with an image URL that trims to
     * nothing (`IsBlank`, by `TrimIsEmptyIffBlank`), nothing happens at all.
     * Otherwise one insert is sent; on
     * success the form is reset and a re-fetch follows, on an error the form
     * is kept. `uploading` is false afterwards.
     */
    method SubmitNewPost(newPostId: PostId, now: int, writeError: Option<string>)
      returns (sent: Option<Request>, refetch: bool)
      requires Valid()
      requires writeError.None? ==> newPostId !in storedPosts
      modifies this`newPost, this`uploading, this`storedPosts
      ensures Valid()
      ensures old(artist).None? || IsBlank(old(newPost).imageUrl) ==>
        sent == None && !refetch && unchanged(this)
      ensures old(artist).Some? && !IsBlank(old(newPost).imageUrl) ==>
        var form := old(newPost);
        var post := Post(newPostId, artist.value.id, form.imageUrl, form.caption, now);
        && sent == Some(InsertPostRow(artist.value.id, form.imageUrl, form.caption))
        && !uploading
        && (refetch <==> writeError.None?)
        && newPost == (if refetch then BlankPostForm else form)
        && storedPosts == (if refetch then old(storedPosts)[newPostId := post] else old(storedPosts))
    {
      sent, refetch := None, false;
      var blank := IsBlank(newPost.imageUrl);
      if artist.None? || blank {
        return;
      }
      uploading := true;
      var aid := artist.value.id;
      var form := newPost;
      sent := Some(InsertPostRow(aid, form.imageUrl, form.caption));
      if writeError.None? {
        StorePost(Post(newPostId, aid, form.imageUrl, form.caption, now));
        newPost := BlankPostForm;
        refetch := true;
      }
      uploading := false;
    }

    /** The `posts` table after a successful insert of `post` by the loaded artist. */
    method StorePost(post: Post)
      requires Valid()
      requires artist.Some? && post.artistId == artist.value.id
      modifies this`storedPosts
      ensures Valid()
      ensures storedPosts == old(storedPosts)[post.id := post]
    {
      PostInsertKeepsStoreValid(storedArtists, storedPosts, post);
      storedPosts := storedPosts[post.id := post];
    }

    /**
     * `handleDeletePost`: a declined confirmation does nothing; a confirmed
     * delete sends one delete by id, and on success the post is gone from the
     * table and a re-fetch follows. `uploading` is never touched.
     */
    method DeletePost(postId: PostId, confirmed: bool, writeError: Option<string>)
      returns (sent: Option<Request>, refetch: bool)
      requires Valid()
      modifies this`storedPosts
      ensures Valid()
      ensures !confirmed ==> sent == None && !refetch && storedPosts == old(storedPosts)
      ensures confirmed ==> sent == Some(DeletePostRow(postId)) && (refetch <==> writeError.None?)
      ensures storedPosts == if refetch then old(storedPosts) - {postId} else old(storedPosts)
    {
      sent, refetch := None, false;
      if !confirmed {
        return;
      }
      sent := Some(DeletePostRow(postId));
      if writeError.None? {
        storedPosts := storedPosts - {postId};
        refetch := true;
      }
    }

    /**
     * A delete followed by the re-fetch it triggers: once a confirmed delete
     * succeeds and the posts are read again, the deleted post is no longer on
     * display and every other post of the artist is.
     */
    method DeletePostAndRefresh(postId: PostId, confirmed: bool, writeError: Option<string>,
                                artistReply: Reply<Artist>, postsReply: Reply<seq<Post>>)
      requires Valid()
      requires session.Some? ==> HonestLookup(storedArtists, session.value, artistReply)
      requires artistReply.Ok? ==>
        HonestPosts(if confirmed && writeError.None? then storedPosts - {postId} else storedPosts,
                    artistReply.value.id, postsReply)
      modifies this`storedPosts, this`artist, this`profileForm, this`posts, this`loading
      ensures Valid()
      ensures !confirmed ==> unchanged(this)
      ensures confirmed && writeError.None? && session.Some? && artistReply.Ok? && postsReply.Ok? ==>
        && artist == Some(artistReply.value)
        && (forall i | 0 <= i < |posts| :: posts[i].id != postId)
        && (forall id | id in old(storedPosts) && id != postId && old(storedPosts)[id].artistId == artistReply.value.id ::
              old(storedPosts)[id] in posts)
    {
      var sent, refetch := DeletePost(postId, confirmed, writeError);
      if refetch {
        var lookup, postsFetched := FetchArtistData(artistReply, postsReply);
        if session.Some? && artistReply.Ok? && postsReply.Ok? {
          forall id | id in old(storedPosts) && id != postId && old(storedPosts)[id].artistId == artistReply.value.id
            ensures old(storedPosts)[id] in posts
          {
            assert storedPosts[id] == old(storedPosts)[id];
          }
        }
      }
    }

    /** The profile section's Edit/Cancel toggle. */
    method ToggleEditing()
      requires Valid()
      modifies this`editing
      ensures Valid()
      ensures editing == !old(editing)
    {
      editing := !editing;
    }

    /** The form's Cancel button. */
    method CancelEditing()
      requires Valid()
      modifies this`editing
      ensures Valid()
      ensures !editing
    {
      editing := false;
    }

    /** Typing into one profile input stores its text in that field alone. */
    method TypeInProfile(input: ProfileInput, text: string)
      requires Valid()
      modifies this`profileForm
      ensures Valid()
      ensures profileForm == match input
        case NameInput => old(profileForm).(name := text)
        case BioInput => old(profileForm).(bio := text)
        case LocationInput => old(profileForm).(location := text)
        case PriceInput => old(profileForm).(averagePrice := PriceText(text))
        case InstagramInput => old(profileForm).(instagramUrl := text)
        case ImageInput => old(profileForm).(profileImage := text)
    {
      match input
      case NameInput => profileForm := profileForm.(name := text);
      case BioInput => profileForm := profileForm.(bio := text);
      case LocationInput => profileForm := profileForm.(location := text);
      case PriceInput => profileForm := profileForm.(averagePrice := PriceText(text));
      case InstagramInput => profileForm := profileForm.(instagramUrl := text);
      case ImageInput => profileForm := profileForm.(profileImage := text);
    }

    /** Typing into one new-post input stores its text in that field alone. */
    method TypeInNewPost(input: PostInput, text: string)
      requires Valid()
      modifies this`newPost
      ensures Valid()
      ensures newPost == match input
        case ImageUrlInput => old(newPost).(imageUrl := text)
        case CaptionInput => old(newPost).(caption := text)
    {
      match input
      case ImageUrlInput => newPost := newPost.(imageUrl := text);
      case CaptionInput => newPost := newPost.(caption := text);
    }
  }

  /**
   * First visit of an account ("A") that has no artist yet: the lookup finds
   * no row, and the user opens the form and types a name and a price.
   */
  method OpenFirstProfileForm() returns (d: ArtistDashboard)
    ensures fresh(d) && d.Valid() && d.session == Some("A")
    ensures d.artist == None && d.posts == [] && !d.loading && d.editing
    ensures d.profileForm == BlankProfileForm.(name := "Jo", averagePrice := PriceText("45"))
    ensures d.storedArtists == map[] && d.storedPosts == map[]
  {
    d := new ArtistDashboard(Some("A"), map[], map[]);
    var lookup, _ := d.FetchArtistData(Err(NoRowsCode), Ok([]));
    d.ToggleEditing();
    d.TypeInProfile(NameInput, "Jo");
    d.TypeInProfile(PriceInput, "45");
  }

  /**
   * First-time setup, continued: saving creates the account's artist with
   * that name and the price `parseFloat("45")`, and the re-fetch then shows
   * the new artist and no posts, with editing ended.
   */
  method FirstProfileSetup() returns (d: ArtistDashboard)
    ensures d.artist.Some? && d.artist.value.userId == "A"
    ensures d.artist.value.name == "Jo" && d.artist.value.averagePrice == Some(45.0)
    ensures d.storedArtists == map[d.artist.value.id := d.artist.value]
    ensures d.posts == [] && !d.editing && !d.loading && !d.uploading
  {
    d := OpenFirstProfileForm();
    var sent, refetch := d.SubmitProfile(Some(45.0), None, 1, 100);
    var row := NewArtistRow(1, "A", ProfileFields("Jo", "", "", Some(45.0), "", ""), 100);
    assert d.artist == Some(row) && d.storedArtists == map[1 := row] && d.storedPosts == map[];
    var lookup, postsFetched := d.FetchArtistData(Ok(row), Ok([]));
  }
}
