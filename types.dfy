/** Record shapes shared by the weather service and the dashboard. */
module WeatherTypes {

  /** A full weather reading as served by GET /api/weather. Sensor values are
      exact reals; the timestamp is in milliseconds since the epoch. */
  datatype WeatherData = WeatherData(
    temperature: real,
    humidity: real,
    pressure: real,
    windSpeed: real,
    rainProbability: real,
    uvIndex: real,
    timestamp: int)

  /** One point of a chart series: a display time and a value. */
  datatype WeatherDataPoint = WeatherDataPoint(value: real, time: string)

  /** Six parallel chart series, one per metric. */
  datatype WeatherHistoryData = WeatherHistoryData(
    temperature: seq<WeatherDataPoint>,
    humidity: seq<WeatherDataPoint>,
    pressure: seq<WeatherDataPoint>,
    windSpeed: seq<WeatherDataPoint>,
    rainProbability: seq<WeatherDataPoint>,
    uvIndex: seq<WeatherDataPoint>)

  /** The history with every series empty. */
  const NoHistory := WeatherHistoryData([], [], [], [], [], [])
}
