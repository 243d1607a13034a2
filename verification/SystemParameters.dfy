/** The system parameter service behind GetParameterWrap and SetParameterWrap (parameter_wrap.cpp). */
module SystemParameters {
  import opened Decimal

  /** The stored parameters and the names the service refuses to write. */
  datatype Params = Params(values: map<string, string>, refused: set<string>)

  /** GetParameterWrap: an unset or empty parameter reads as the default; an empty answer is a failure. */
  function GetParameter(p: Params, name: string, default: string): Option<string> {
    if name in p.values && p.values[name] != "" then Some(p.values[name])
    else if default != "" then Some(default)
    else None
  }

  function SetParameter(p: Params, name: string, value: string): Params {
    if name in p.refused then p else p.(values := p.values[name := value])
  }

  class ParameterService {
    var values: map<string, string>
    var refused: set<string>

    ghost function State(): Params
      reads this
    {
      Params(values, refused)
    }

    constructor (values: map<string, string>, refused: set<string>)
      ensures State() == Params(values, refused)
    {
      this.values, this.refused := values, refused;
    }

    method Get(name: string, default: string) returns (found: bool, value: string)
      ensures found == GetParameter(State(), name, default).Some?
      ensures value == if found then GetParameter(State(), name, default).value else default
    {
      if name in values && values[name] != "" {
        return true, values[name];
      }
      return default != "", default;
    }

    method Set(name: string, value: string) returns (ok: bool)
      modifies this
      ensures State() == SetParameter(old(State()), name, value)
      ensures ok == (name !in old(refused))
    {
      ok := name !in refused;
      if ok {
        values := values[name := value];
      }
    }
  }
}
