/**
 * The settings dictionaries a step encodes itself to and decodes itself
 * from, ready for JSON: string keys to booleans, numbers or the nested
 * group settings of a configuration step.
 */
module SettingsDict {
  import opened GroupSettingsStore

  datatype DictValue = Bool(b: bool) | Int(i: int) | Real(r: real) | Groups(groups: GroupSettings)

  type Dict = map<string, DictValue>

  /** Why a dictionary could not be decoded. */
  datatype DecodeError =
    | MissingTypeId(typeId: string)   // the step's type id is not a key of the input
    | WrongType(key: string)          // the value under this key has a type the setting cannot hold

  datatype Result<+T> = Success(value: T) | Failure(error: DecodeError)

  /**
   * The current encoding with the input laid over it, as Python's dict.update
   * does: keys of the input win, keys missing from it keep their current values.
   */
  function Overlay(current: Dict, input: Dict): (r: Dict)
    ensures r.Keys == current.Keys + input.Keys
    ensures forall k :: k in input ==> r[k] == input[k]
    ensures forall k :: k in current && k !in input ==> r[k] == current[k]
  {
    current + input
  }
}
