/**
 carrier/carrier.go: the trace carrier over a slice of user properties. Set
 writes into the slice it was given.
*/
module Carrier {
  import opened GoSlices
  import opened UserProperties

  class PropertyCarrier {
    var props: Slice<UserProperty>

    ghost predicate Valid()
      reads this
    {
      props.Valid()
    }

    ghost function Contents(): seq<UserProperty>
      requires Valid()
      reads this, props.arr
    {
      props.Contents()
    }

    constructor (props: Slice<UserProperty>)
      requires props.Valid()
      ensures Valid() && this.props == props
    {
      this.props := props;
    }

    method Get(key: string) returns (value: string)
      requires Valid()
      ensures value == GetFirst(Contents(), key)
    {
      for i := 0 to props.len
        invariant forall j | 0 <= j < i :: Contents()[j].key != key
      {
        var p := props.arr[i];
        assert p == Contents()[i];
        if p.key == key {
          FindIs(Contents(), key, i);
          return p.value;
        }
      }
      FindIs(Contents(), key, props.len);
      return "";
    }

    // The cell is overwritten in the shared array, or a property is appended.
    method Set(key: string, value: string, spare: nat)
      requires Valid()
      modifies `props, props.arr
      ensures Valid() && (props.arr == old(props.arr) || fresh(props.arr))
      ensures Contents() == SetFirst(old(Contents()), key, value)
    {
      for i := 0 to props.len
        invariant props == old(props) && Contents() == old(Contents())
        invariant forall j | 0 <= j < i :: Contents()[j].key != key
      {
        var p := props.arr[i];
        assert p == Contents()[i];
        if p.key == key {
          FindIs(Contents(), key, i);
          props.arr[i] := UserProperty(p.key, value);
          return;
        }
      }
      FindIs(Contents(), key, props.len);
      props := Append(props, UserProperty(key, value), spare);
    }

    method KeyList() returns (keys: seq<string>)
      requires Valid()
      ensures keys == Keys(Contents())
    {
      var cells := new string[props.len];
      for i := 0 to props.len
        invariant cells[..i] == Keys(Contents())[..i]
      {
        assert props.arr[i] == Contents()[i];
        cells[i] := props.arr[i].key;
        assert cells[..i + 1] == cells[..i] + [cells[i]];
      }
      assert cells[..] == cells[..props.len];
      keys := cells[..];
    }
  }
}
