/**
 * The purchased-robot page (src/components/dashboard/users-courses/robots/SingleRobotPur.js):
 * `s_robLoader`, the effect that reacts to the loaded account status, the
 * robot fetch that settles the loading flag, and the render guards.
 */
module RobotPurchase {
  import opened JsValues
  import opened UserState

  /**
   * `s_robLoader`: without a user, redirect to "/" and fetch nothing; otherwise
   * fetch the details for `user.name` and return the body, or redirect to "/"
   * when the fetch throws.
   */
  function RobotLoader(user: Option<User>, fetch: Fetch<UserRecord>): (r: (LoaderResult<UserRecord>, Option<DetailsRequest>))
    ensures user.None? ==> r == (Redirect("/"), None)
    ensures user.Some? ==> r.1 == Some(DetailsRequest(user.value.name))
    ensures user.Some? && fetch.Fetched? ==> r.0 == Data(fetch.body)
    ensures user.Some? && fetch.FetchThrew? ==> r.0 == Redirect("/")
  {
    match user
    case None => (Redirect("/"), None)
    case Some(u) =>
      var request := Some(DetailsRequest(u.name));
      match fetch
      case FetchThrew => (Redirect("/"), request)
      case Fetched(body) => (Data(body), request)
  }

  /** The loader hands the page account data only when a user is signed in and the fetch answered. */
  lemma RobotLoaderDataOnlyWithUser(user: Option<User>, fetch: Fetch<UserRecord>)
    ensures RobotLoader(user, fetch).0.Data? <==> user.Some? && fetch.Fetched?
  {
  }

  /** The robot record the page shows. */
  datatype Robot = Robot(title: string, image: string, zip: string, description: string)

  /** What the component renders; the detail view carries whether `<InactiveM/>` is shown inside it. */
  datatype View = LoadingView | NoDataView | DetailView(robot: Robot, modal: bool)

  /** The inactive-account modal is on screen. */
  predicate ModalShown(v: View) {
    v.DetailView? && v.modal
  }

  const UnauthorizedAlert: string := "Unauthorized user"

  /** What the status effect does for one value of the loader data. */
  datatype Reaction = Reaction(clearLoading: bool, alert: Option<string>, navigate: Option<string>, openModal: bool)

  /**
   * The three independent checks of the status effect: truthy data clears the
   * loading flag; status "banned" alerts and navigates home; status "inactive"
   * opens the modal. Any other status does neither of the last two.
   */
  function StatusReaction(data: Option<UserRecord>): (r: Reaction)
    ensures r.clearLoading <==> data.Some?
    ensures r.alert.Some? <==> data.Some? && data.value.status == Some("banned")
    ensures r.navigate.Some? <==> r.alert.Some?
    ensures r.alert.Some? ==> r.alert == Some(UnauthorizedAlert) && r.navigate == Some("/")
    ensures r.openModal <==> data.Some? && data.value.status == Some("inactive")
    ensures !(r.navigate.Some? && r.openModal)
  {
    var status := if data.Some? then data.value.status else None;
    var banned := status == Some("banned");
    Reaction(data.Some?, if banned then Some(UnauthorizedAlert) else None,
             if banned then Some("/") else None, status == Some("inactive"))
  }

  /**
   * What the status effect does with what `s_robLoader` handed over: the banned
   * reaction happens exactly for a signed-in user whose answered record says
   * "banned", the modal opens exactly for one whose record says "inactive", and
   * loading is cleared exactly when the fetch answered with a record. A redirect
   * means the page never mounts, so none of these happens.
   */
  lemma LoaderDrivesStatus(user: Option<User>, fetch: Fetch<UserRecord>)
    ensures var result := RobotLoader(user, fetch).0;
      var answered := user.Some? && fetch.Fetched? && fetch.body.Some?;
      && (result.Data? && StatusReaction(result.body).navigate == Some("/") <==>
            answered && fetch.body.value.status == Some("banned"))
      && (result.Data? && StatusReaction(result.body).openModal <==>
            answered && fetch.body.value.status == Some("inactive"))
      && (result.Data? && StatusReaction(result.body).clearLoading <==> answered)
  {
  }

  /** The component's state: `loading`, `showModal`, `robot`. */
  class RobotPage {
    var loading: bool
    var showModal: bool
    var robot: Option<Robot>

    constructor ()
      ensures loading && !showModal && robot.None?
    {
      loading, showModal, robot := true, false, None;
    }

    /** The status effect, run with the loader data; returns the alert and navigation it emits. */
    method StatusEffect(data: Option<UserRecord>) returns (alert: Option<string>, navigate: Option<string>)
      modifies this
      ensures var r := StatusReaction(data);
        && loading == (old(loading) && !r.clearLoading)
        && showModal == (old(showModal) || r.openModal)
        && robot == old(robot)
        && alert == r.alert && navigate == r.navigate
      ensures data.Some? && robot.None? ==> Render() == NoDataView && !ModalShown(Render())
      ensures data.Some? && robot.Some? ==> Render() == DetailView(robot.value, showModal)
      ensures data.None? && old(loading) ==> Render() == LoadingView
    {
      alert, navigate := None, None;
      if data.Some? {
        loading := false;
      }
      if data.Some? && data.value.status == Some("banned") {
        alert := Some(UnauthorizedAlert);
        navigate := Some("/");
      }
      if data.Some? && data.value.status == Some("inactive") {
        showModal := true;
      }
    }

    /** `fetchRobot` settling: on an answer store `data?.data`; on a throw keep the robot; either way stop loading. */
    method RobotFetched(fetch: Fetch<Robot>)
      modifies this
      ensures robot == (if fetch.Fetched? then fetch.body else old(robot))
      ensures !loading && showModal == old(showModal)
      ensures Render() != LoadingView
      ensures fetch.Fetched? && fetch.body.None? ==> Render() == NoDataView
      ensures fetch.Fetched? && fetch.body.Some? ==> Render() == DetailView(fetch.body.value, showModal)
    {
      if fetch.Fetched? {
        robot := fetch.body;
      }
      loading := false;
    }

    /** `closeModal`. */
    method CloseModal()
      modifies this
      ensures !showModal && loading == old(loading) && robot == old(robot)
      ensures !ModalShown(Render())
    {
      showModal := false;
    }

    /** The render guards, checked in order: loading, then no robot, then the detail view. */
    function Render(): (v: View)
      reads this
      ensures v == LoadingView <==> loading
      ensures v == NoDataView <==> !loading && robot.None?
      ensures v.DetailView? <==> !loading && robot.Some?
      ensures v.DetailView? ==> robot == Some(v.robot) && v.modal == showModal
      ensures ModalShown(v) <==> !loading && robot.Some? && showModal
    {
      if loading then LoadingView
      else if robot.None? then NoDataView
      else DetailView(robot.value, showModal)
    }
  }
}
