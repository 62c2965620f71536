// The app-wide observable state the screens share.

module App {
  import opened Wrappers
  import opened Models

  /** The signed-in user and the list of their artworks, newest first. */
  class AppState {
    var currentUser: Option<User>
    var userWorks: seq<ArtWork>

    constructor (currentUser: Option<User>, userWorks: seq<ArtWork>)
      ensures this.currentUser == currentUser && this.userWorks == userWorks
    {
      this.currentUser := currentUser;
      this.userWorks := userWorks;
    }
  }
}
