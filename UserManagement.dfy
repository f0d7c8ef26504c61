/**
 * The CRUD UI state of libs/hooks/src/useUserManagement.ts: six state cells
 * for the delete dialog, the add/edit drawer and the read-only showcase,
 * seven actions that set them, and the derived drawer mode. The three
 * surfaces are independent: opening one never closes another.
 */
module UserManagement {
  import opened Wrappers
  import opened UserModel

  datatype DrawerMode = Add | Edit

  class UserManagement {
    var deleteDialogOpen: bool
    var userToDelete: Option<User>
    var drawerOpen: bool
    var userToEdit: Option<User>
    var showcaseOpen: bool
    var userToShowcase: Option<User>

    /** Everything closed, no targets. */
    predicate AllClosed()
      reads this
    {
      !deleteDialogOpen && userToDelete.None? &&
      !drawerOpen && userToEdit.None? &&
      !showcaseOpen && userToShowcase.None?
    }

    constructor ()
      ensures AllClosed()
    {
      deleteDialogOpen, userToDelete := false, None;
      drawerOpen, userToEdit := false, None;
      showcaseOpen, userToShowcase := false, None;
    }

    /** `drawerMode`: editing exactly when there is a user to edit. */
    function Mode(): (m: DrawerMode)
      reads this
      ensures m == Edit <==> userToEdit.Some?
    {
      if userToEdit.Some? then Edit else Add
    }

    method OpenDeleteDialog(user: User)
      modifies this`userToDelete, this`deleteDialogOpen
      ensures deleteDialogOpen && userToDelete == Some(user)
    {
      userToDelete := Some(user);
      deleteDialogOpen := true;
    }

    method CloseDeleteDialog()
      modifies this`userToDelete, this`deleteDialogOpen
      ensures !deleteDialogOpen && userToDelete.None?
    {
      deleteDialogOpen := false;
      userToDelete := None;
    }

    method OpenAddDrawer()
      modifies this`userToEdit, this`drawerOpen
      ensures drawerOpen && userToEdit.None? && Mode() == Add
    {
      userToEdit := None;
      drawerOpen := true;
    }

    method OpenEditDrawer(user: User)
      modifies this`userToEdit, this`drawerOpen
      ensures drawerOpen && userToEdit == Some(user) && Mode() == Edit
    {
      userToEdit := Some(user);
      drawerOpen := true;
    }

    method CloseDrawer()
      modifies this`userToEdit, this`drawerOpen
      ensures !drawerOpen && userToEdit.None? && Mode() == Add
    {
      drawerOpen := false;
      userToEdit := None;
    }

    method OpenShowcase(user: User)
      modifies this`userToShowcase, this`showcaseOpen
      ensures showcaseOpen && userToShowcase == Some(user)
    {
      userToShowcase := Some(user);
      showcaseOpen := true;
    }

    method CloseShowcase()
      modifies this`userToShowcase, this`showcaseOpen
      ensures !showcaseOpen && userToShowcase.None?
    {
      showcaseOpen := false;
      userToShowcase := None;
    }
  }

  /**
   * There is no mutual exclusion: starting from the initial state, opening the
   * delete dialog, the edit drawer and the showcase leaves all three open with
   * their own targets.
   */
  method OpenAllThree(a: User, b: User, c: User) returns (deleteOpen: bool, drawer: bool, showcase: bool, mode: DrawerMode)
    ensures deleteOpen && drawer && showcase && mode == Edit
  {
    var ui := new UserManagement();
    ui.OpenDeleteDialog(a);
    ui.OpenEditDrawer(b);
    ui.OpenShowcase(c);
    assert ui.userToDelete == Some(a) && ui.userToShowcase == Some(c);
    return ui.deleteDialogOpen, ui.drawerOpen, ui.showcaseOpen, ui.Mode();
  }

  /** Opening the delete dialog and cancelling it returns to the initial, all-closed state. */
  method CancelDelete(u: User) returns (closed: bool)
    ensures closed
  {
    var ui := new UserManagement();
    ui.OpenDeleteDialog(u);
    ui.CloseDeleteDialog();
    return ui.AllClosed();
  }
}
