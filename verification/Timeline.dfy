/** Counting events on a timeline. */
module Timeline {
  type Time = int

  function CountWithin(times: seq<Time>, t1: Time, t2: Time): nat {
    if times == [] then 0 else (if t1 <= times[0] <= t2 then 1 else 0) + CountWithin(times[1..], t1, t2)
  }
}
