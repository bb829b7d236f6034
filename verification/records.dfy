/** The two persisted entities, as the client sees their rows. */
module Records {
  import opened Wrappers

  type ArtistId = nat
  type PostId = nat
  /** The authenticated account's identifier (`session.user.id`). */
  type UserId = string

  /**
   * A row of the `artists` table. `name` is required; the other text columns
   * and the price are nullable. Timestamps are abstracted to integers.
   */
  datatype Artist = Artist(
    id: ArtistId,
    userId: UserId,
    name: string,
    bio: Option<string>,
    location: Option<string>,
    averagePrice: Option<real>,
    instagramUrl: Option<string>,
    profileImage: Option<string>,
    createdAt: int)

  /**
   * A row of the `posts` table. A null caption is the empty string: every
   * use of it (`caption || ...`, `caption && ...`) treats the two alike.
   */
  datatype Post = Post(
    id: PostId,
    artistId: ArtistId,
    imageUrl: string,
    caption: string,
    createdAt: int)

  /** Display order of posts: `created_at` descending (ties in any order). */
  predicate NewestFirst(ps: seq<Post>)
  {
    forall i, j :: 0 <= i < j < |ps| ==> ps[i].createdAt >= ps[j].createdAt
  }
}
