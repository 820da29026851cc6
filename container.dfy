/** The container shell: it holds the user name and room URL collected by the
    join form, shows the call view while the URL is set and the join form
    otherwise. */
module Container {

  class DailyContainerComponent {
    var userName: string
    var dailyRoomUrl: string

    /** Both fields start unset, which displays like the empty string. */
    constructor ()
      ensures userName == "" && dailyRoomUrl == ""
      ensures !ShowsCall()
    {
      userName := "";
      dailyRoomUrl := "";
    }

    /** The call view is shown exactly when the room URL is non-empty. */
    predicate ShowsCall()
      reads this
    {
      dailyRoomUrl != ""
    }

    method SetUserName(name: string)
      modifies this
      ensures userName == name && dailyRoomUrl == old(dailyRoomUrl)
    {
      userName := name;
    }

    method SetUrl(url: string)
      modifies this
      ensures dailyRoomUrl == url && userName == old(userName)
      ensures ShowsCall() <==> url != ""
    {
      dailyRoomUrl := url;
    }

    /** The call has ended: clear both fields, so the join form shows again. */
    method CallEnded()
      modifies this
      ensures userName == "" && dailyRoomUrl == ""
      ensures !ShowsCall()
    {
      dailyRoomUrl := "";
      userName := "";
    }
  }

  /** Ending the call a second time changes nothing more. */
  method CallEndedIdempotent(c: DailyContainerComponent)
    modifies c
    ensures c.userName == "" && c.dailyRoomUrl == ""
  {
    c.CallEnded();
    var name, url := c.userName, c.dailyRoomUrl;
    c.CallEnded();
    assert c.userName == name && c.dailyRoomUrl == url;
  }
}
