/** The browser-automation collaborator (a Stagehand instance bound to one
    remote session, and its page), abstracted as a log of the calls made on it
    and an oracle that answers each call. */
module Automation {
  import opened Wrappers

  type Error = string

  /** One entry of an `observe()` result. */
  datatype ObservedAction = ObservedAction(selector: string, description: string)

  /** What an automation call resolves to, as far as the agent uses it. */
  datatype Value = Undefined | Str(s: string) | Observations(items: seq<ObservedAction>)

  /** The calls the agent makes; `Sleep` is the timer of a WAIT, not a page call. */
  datatype Call =
    | Init
    | Goto(url: Option<string>, waitUntil: string, timeout: nat)
    | Act(action: Option<string>)
    | Extract(query: Option<string>)
    | Observe(hint: Option<string>, useAccessibilityTree: bool)
    | Close
    | Screenshot
    | GoBack
    | Sleep(duration: Option<string>)

  predicate IsPageCall(c: Call) {
    !c.Sleep?
  }

  /** How the remote side answers the `n`-th call made on one instance. */
  type World = (nat, Call) -> Result<Value, Error>

  /** How many times `c` occurs in `log`. */
  function Count(c: Call, log: seq<Call>): nat {
    if log == [] then 0 else Count(c, log[..|log| - 1]) + (if log[|log| - 1] == c then 1 else 0)
  }

  class Stagehand {
    const sessionID: string
    const world: World
    /** Every call made on this instance so far, in order. */
    var effects: seq<Call>

    constructor (sessionID: string, world: World)
      ensures this.sessionID == sessionID && this.world == world
      ensures effects == []
    {
      this.sessionID := sessionID;
      this.world := world;
      effects := [];
    }

    /** Makes call `c` and awaits the remote answer. */
    method Perform(c: Call) returns (r: Result<Value, Error>)
      requires IsPageCall(c)
      modifies this
      ensures effects == old(effects) + [c]
      ensures r == world(|old(effects)|, c)
    {
      r := world(|effects|, c);
      effects := effects + [c];
    }

    method Init() returns (r: Result<Value, Error>)
      modifies this
      ensures effects == old(effects) + [Call.Init]
      ensures r == world(|old(effects)|, Call.Init)
    {
      r := Perform(Call.Init);
    }

    method Close() returns (r: Result<Value, Error>)
      modifies this
      ensures effects == old(effects) + [Call.Close]
      ensures r == world(|old(effects)|, Call.Close)
    {
      r := Perform(Call.Close);
    }

    /** `page.goto(url, { waitUntil, timeout })`. */
    method Goto(url: Option<string>, waitUntil: string, timeout: nat) returns (r: Result<Value, Error>)
      modifies this
      ensures effects == old(effects) + [Call.Goto(url, waitUntil, timeout)]
      ensures r == world(|old(effects)|, Call.Goto(url, waitUntil, timeout))
    {
      r := Perform(Call.Goto(url, waitUntil, timeout));
    }

    /** `page.act(action)`. */
    method Act(action: Option<string>) returns (r: Result<Value, Error>)
      modifies this
      ensures effects == old(effects) + [Call.Act(action)]
      ensures r == world(|old(effects)|, Call.Act(action))
    {
      r := Perform(Call.Act(action));
    }

    /** `page.extract(query)`; the answer stands for the `extraction` field of its result. */
    method Extract(query: Option<string>) returns (r: Result<Value, Error>)
      modifies this
      ensures effects == old(effects) + [Call.Extract(query)]
      ensures r == world(|old(effects)|, Call.Extract(query))
    {
      r := Perform(Call.Extract(query));
    }

    /** `page.observe({ instruction: hint, useAccessibilityTree })`. */
    method Observe(hint: Option<string>, useAccessibilityTree: bool) returns (r: Result<Value, Error>)
      modifies this
      ensures effects == old(effects) + [Call.Observe(hint, useAccessibilityTree)]
      ensures r == world(|old(effects)|, Call.Observe(hint, useAccessibilityTree))
    {
      r := Perform(Call.Observe(hint, useAccessibilityTree));
    }

    /** A CDP `Page.captureScreenshot` on the page; the answer stands for its `data` field. */
    method Screenshot() returns (r: Result<Value, Error>)
      modifies this
      ensures effects == old(effects) + [Call.Screenshot]
      ensures r == world(|old(effects)|, Call.Screenshot)
    {
      r := Perform(Call.Screenshot);
    }

    /** `page.goBack()`. */
    method GoBack() returns (r: Result<Value, Error>)
      modifies this
      ensures effects == old(effects) + [Call.GoBack]
      ensures r == world(|old(effects)|, Call.GoBack)
    {
      r := Perform(Call.GoBack);
    }

    /** A `setTimeout` of `duration` milliseconds: logged, never fails, asks nothing of the page. */
    method Sleep(duration: Option<string>)
      modifies this
      ensures effects == old(effects) + [Call.Sleep(duration)]
    {
      effects := effects + [Call.Sleep(duration)];
    }
  }
}
