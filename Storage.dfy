/**
 * The browser's local storage as the data layer sees it: three keys holding
 * the collections and one key holding the signed-in user.
 */
module Storage {
  import opened Wrappers
  import opened Types

  /**
   * The text stored under a collection key, as far as the data layer looks at
   * it: no entry (`getItem` gives `null`), the empty string, or the encoding of
   * an array. The first two are falsy; an encoded array, even `[]`, is not.
   */
  datatype Slot<T> = Missing | Blank | Stored(items: seq<T>) {

    predicate Truthy() {
      Stored?
    }

    /** `JSON.parse(localStorage.getItem(key) || '[]')`. */
    function Items(): seq<T> {
      if Stored? then items else []
    }
  }

  class Store {
    var jobs: Slot<Job>                  // "campushire_jobs"
    var applications: Slot<Application>  // "campushire_applications"
    var users: Slot<User>                // "campushire_users"
    var currentUser: Option<User>        // "campushire_user"; an empty string reads as absent

    /** The storage as the page finds it on load. */
    constructor (jobs: Slot<Job>, applications: Slot<Application>, users: Slot<User>, currentUser: Option<User>)
      ensures this.jobs == jobs && this.applications == applications
      ensures this.users == users && this.currentUser == currentUser
    {
      this.jobs := jobs;
      this.applications := applications;
      this.users := users;
      this.currentUser := currentUser;
    }
  }
}
