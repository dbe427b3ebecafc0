/** A request as the object the scheduler's lists share (sequence.py). */
module SequenceObjects {
  import opened LanguageModel
  import opened Options
  import opened PagedKvCache
  import opened Requests

  class Sequence {
    const id: SeqId
    const prompt: seq<Token>
    const maxNew: nat
    const eos: Option<Token>
    const stops: set<Token>
    var output: seq<Token>
    var status: Status

    ghost function View(): Request
      reads this
    {
      Request(prompt, maxNew, eos, stops, output, status)
    }

    constructor (id: SeqId, prompt: seq<Token>, maxNew: nat, eos: Option<Token>, stops: set<Token>)
      ensures this.id == id && View() == Request(prompt, maxNew, eos, stops, [], Waiting)
    {
      this.id, this.prompt, this.maxNew, this.eos, this.stops := id, prompt, maxNew, eos, stops;
      output, status := [], Waiting;
    }

    method LastTokenId() returns (t: Token)
      requires prompt != []
      ensures t == LastToken(View())
    {
      var tokens := if output != [] then output else prompt;
      return tokens[|tokens| - 1];
    }

    method AppendToken(t: Token)
      modifies this
      ensures View() == Requests.AppendToken(old(View()), t)
    {
      output := output + [t];
      if (eos.Some? && t == eos.value) || t in stops || |output| >= maxNew {
        status := Finished;
      }
    }
  }
}
