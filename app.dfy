/** The top-level component: which of the three screens is shown, and the
  * answers handed from the coaching session to the summary screen. */
module App {
  import opened Types

  datatype View = Landing | Coach | Summary

  /** The navigation button's label: the start label exactly on the landing
    * screen, the restart label everywhere else. */
  function NavLabel(v: View): (r: string)
    ensures r == "开始教练之旅" <==> v == Landing
    ensures r == "重新开始" <==> v != Landing
  {
    if v == Landing then "开始教练之旅" else "重新开始"
  }

  /** The screens the main area renders for view `v` (one guarded element
    * per screen): exactly the screen of `v`. */
  function Rendered(v: View): (r: seq<View>)
    ensures r == [v]
  {
    (if v == Landing then [Landing] else [])
    + (if v == Coach then [Coach] else [])
    + (if v == Summary then [Summary] else [])
  }

  class AppState {
    var view: View
    var woopData: WoopData

    /** The initial state: the landing screen, all four answers empty. */
    constructor ()
      ensures view == Landing && woopData == EmptyData
    {
      view := Landing;
      woopData := EmptyData;
    }

    /** `startCoaching` (the navigation button and the landing page's call to
      * action): the coaching screen; the stored answers stay. Already on the
      * coaching screen, nothing changes, so the running session is kept. */
    method StartCoaching()
      modifies this
      ensures view == Coach && woopData == old(woopData)
      ensures old(view) == Coach ==> unchanged(this)
    {
      view := Coach;
    }

    /** `finishCoaching(d)`: stores the session's hand-off exactly and shows
      * the summary screen. */
    method FinishCoaching(d: WoopData)
      modifies this
      ensures view == Summary && woopData == d
    {
      woopData := d;
      view := Summary;
    }

    /** The logo's click handler: back to the landing screen; the stored
      * answers stay. */
    method ClickLogo()
      modifies this
      ensures view == Landing && woopData == old(woopData)
    {
      view := Landing;
    }
  }
}
