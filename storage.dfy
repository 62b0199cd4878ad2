/**
 * The browser's local storage, seen through `JSON.stringify`/`JSON.parse`: a
 * mutable map from keys to the values stored under them.
 */
module Storage {
  import opened Wrappers
  import opened Domain

  /**
   * A stored value as its reader sees it after parsing. `Text` is a string that
   * does not parse as the JSON its reader expects; the session token is stored
   * as such a plain string.
   */
  datatype Stored =
    | CourseList(courses: seq<Course>)
    | BundleList(bundles: seq<Bundle>)
    | UserList(users: seq<StoredUser>)
    | UserRecord(user: User)
    | Text(text: string)

  const CoursesKey := "courses"
  const BundlesKey := "bundles"
  const UsersKey := "users"
  const TokenKey := "token"
  const UserKey := "user"

  /** Whether `localStorage.getItem(key)` is truthy: present and not the empty string. */
  predicate Truthy(v: Option<Stored>) {
    v.Some? && v.value != Text("")
  }

  /** Whether `getItem(key)` on these entries is truthy. */
  predicate TruthyAt(entries: map<string, Stored>, key: string) {
    Truthy(if key in entries then Some(entries[key]) else None)
  }

  /** `localStorage`. */
  class LocalStore {
    var entries: map<string, Stored>

    constructor (initial: map<string, Stored>)
      ensures entries == initial
    {
      entries := initial;
    }

    /** `getItem(key)`, with `null` as None. */
    function Get(key: string): (v: Option<Stored>)
      reads this
      ensures v.Some? <==> key in entries
      ensures v.Some? ==> v.value == entries[key]
    {
      if key in entries then Some(entries[key]) else None
    }

    /** `setItem(key, value)`. */
    method SetItem(key: string, value: Stored)
      modifies this
      ensures entries == old(entries)[key := value]
    {
      entries := entries[key := value];
    }

    /** `removeItem(key)`. */
    method RemoveItem(key: string)
      modifies this
      ensures entries == old(entries) - {key}
    {
      entries := entries - {key};
    }
  }
}
