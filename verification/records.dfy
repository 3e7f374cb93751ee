/** The server-owned records the client mirrors. Only the attributes the
    client reads or writes are modelled. JSON `null` or a missing string
    attribute is modelled as "" and a missing boolean as `false`, which is
    how the client's truthiness tests treat them. The plant directory's
    sort is the exception: `localeCompare` on a null name throws there,
    and that failure is not modelled. */
module Records {

  /** An account. The client reads both `admin` (navigation bar, comments,
      user manager) and `is_admin` (plant lock gate); they are kept apart. */
  datatype User = User(
    id: int,
    username: string,
    email: string,
    admin: bool,
    isAdmin: bool,
    hasSubscription: bool,
    active: bool)

  datatype Post = Post(id: int, title: string, imageUrl: string, body: string)

  /** The editable attributes of a plant, in the order the admin form lists them. */
  datatype PlantFields = PlantFields(
    commonName: string,
    scientificName: string,
    family: string,
    description: string,
    growingHarvesting: string,
    photoUrl: string,
    partsUsed: string,
    physiologicalActions: string,
    energetics: string,
    waysToUse: string,
    uses: string,
    cautions: string,
    history: string,
    magical: string,
    isSample: bool)

  datatype Plant = Plant(id: int, fields: PlantFields)

  datatype Recipe = Recipe(
    id: int,
    title: string,
    description: string,
    ingredients: string,
    instructions: string,
    imageUrl: string,
    isRemedy: bool)

  /** `price` is the decimal string the server serialises. */
  datatype Course = Course(
    id: int,
    title: string,
    description: string,
    imageUrl: string,
    requiresPurchase: bool,
    price: string)

  /** A comment on a commentable record (a blog post here). */
  datatype Comment = Comment(
    id: int,
    body: string,
    userId: int,
    commentableType: string,
    commentableId: int)

  function UserId(u: User): int { u.id }
  function PostId(p: Post): int { p.id }
  function PlantId(p: Plant): int { p.id }
  function RecipeId(r: Recipe): int { r.id }
  function CourseId(c: Course): int { c.id }
  function CommentId(c: Comment): int { c.id }
}
