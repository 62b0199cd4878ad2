/** The records the application passes around: users, courses with their modules, and bundles. */
module Domain {
  import opened Wrappers

  /** `UserRole`. */
  datatype Role = Educator | Marketer | Student

  /** The string a role is written as in routes and stored records. */
  function RoleName(r: Role): string {
    match r
    case Educator => "educator"
    case Marketer => "marketer"
    case Student => "student"
  }

  /** The public user record: what is kept as the current user and under the 'user' key. */
  datatype User = User(id: string, email: string, name: string, role: Role)

  /** A registered account as kept in the 'users' list, password included. */
  datatype StoredUser = StoredUser(id: string, email: string, password: string, name: string, role: Role)

  /** Stands for a browser `File` object chosen in a file input. */
  datatype VideoFile = VideoFile(name: string)

  /** `ModuleData`: one module of a course's curriculum. */
  datatype ModuleData = ModuleData(
    id: string,
    title: string,
    description: string,
    videoUploaded: bool,
    video: Option<VideoFile>,
    videoPreview: Option<string>,
    duration: string)

  /** `Course`, with the optional fields of the authoring type. */
  datatype Course = Course(
    id: string,
    title: string,
    description: string,
    instructor: string,
    duration: string,
    students: int,
    price: real,
    category: string,
    instructorBio: Option<string>,
    modules: Option<seq<ModuleData>>,
    thumbnail: Option<string>)

  /** `Bundle`: a priced group of courses; `courses` is how many it holds. */
  datatype Bundle = Bundle(
    id: string,
    title: string,
    description: string,
    courses: int,
    originalPrice: real,
    discountedPrice: real,
    discount: real)
}
