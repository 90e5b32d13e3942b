/** The constants of the application's configuration module. */
module Config {

  /** Page size sent as `numOfRows` with every page request. */
  const NumOfRows: nat := 1000

  const BaseUrl: string := "https://apis.data.go.kr/B551177/statusOfAllFltDeOdp"

  /** Passenger terminal codes and their display names. */
  const TerminalMap: map<string, string> :=
    map["P01" := "T1(제1터미널)", "P02" := "탑승동", "P03" := "T2(제2터미널)"]

  /** The closed set of terminals that appear in any user-facing view. */
  const PassengerTerminals: set<string> := TerminalMap.Keys

  /** One spreadsheet sheet per entry, in this order: (terminal code, sheet title). */
  const SheetOrder: seq<(string, string)> := [("P01", "T1"), ("P02", "탑승동"), ("P03", "T2")]

  /** Korea Standard Time, UTC+9, the zone of every timestamp and of the cutoff. */
  const KstOffsetMinutes: int := 9 * 60

  /** The report's columns: (header text, field the cell is derived from). */
  const ExcelColumns: seq<(string, string)> := [
    ("운항일자", "_date"),
    ("출도착", "_flight_type"),
    ("편명", "flight_number"),
    ("I/D", "type_of_flight"),
    ("STA/STD", "scheduled_datetime"),
    ("등록기호", "registration_number"),
    ("ATA/ATD", "actual_datetime"),
    ("운항여부", "remark"),
    ("주기장", "gate_number"),
    ("기종", "aircraft_type"),
    ("출발지공항명", "_departure_airport"),
    ("도착지공항명", "_arrival_airport")
  ]

  lemma PassengerTerminalCodes()
    ensures PassengerTerminals == {"P01", "P02", "P03"}
    ensures forall i :: 0 <= i < |SheetOrder| ==> SheetOrder[i].0 in PassengerTerminals
    ensures |ExcelColumns| == 12
  {
  }
}
