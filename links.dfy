/** Exclusive `active` marking of navigation links, shared by the phone page and the main navigation. */
module Links {

  /** The `.nav-link` elements of a page, by whether each carries the `active` class. */
  class NavLinkList {
    var active: seq<bool>

    constructor (active: seq<bool>)
      ensures this.active == active
    {
      this.active := active;
    }

    /** The click handler: clear `active` on every link, then set it on the clicked one. */
    method Click(clicked: nat)
      requires clicked < |active|
      modifies this
      ensures |active| == |old(active)|
      ensures forall j :: 0 <= j < |active| ==> active[j] == (j == clicked)
    {
      var i := 0;
      while i < |active|
        invariant 0 <= i <= |active| == |old(active)|
        invariant forall j :: 0 <= j < i ==> !active[j]
      {
        active := active[i := false];
        i := i + 1;
      }
      active := active[clicked := true];
    }
  }
}
