// Shared vocabulary of the model: optional values, fixed-width integer
// ranges of the C sources, and the numeric values of asdk_errorcode_t.

module Common {

  datatype Option<T> = None | Some(value: T)

  /** An 8-bit unsigned value (uint8_t). */
  newtype byte = x: int | 0 <= x < 0x100

  const U8_LIMIT: nat := 0x100
  const U16_LIMIT: nat := 0x1_0000
  const U32_LIMIT: nat := 0x1_0000_0000
  const U64_LIMIT: nat := 0x1_0000_0000_0000_0000

  /** The number of external interrupt lines a driver may request (ASDK_EXTI_INTR_MAX). */
  const ASDK_EXTI_INTR_MAX: nat := 8

  predicate IsU8(x: int) { 0 <= x < U8_LIMIT }
  predicate IsU16(x: int) { 0 <= x < U16_LIMIT }
  predicate IsU32(x: int) { 0 <= x < U32_LIMIT }
  predicate IsU64(x: int) { 0 <= x < U64_LIMIT }

  /** Unsigned subtraction of two uint64_t values, wrapping modulo 2^64. */
  function SubU64(a: nat, b: nat): (r: nat)
    requires IsU64(a) && IsU64(b)
    ensures IsU64(r)
    ensures a >= b ==> r == a - b
    ensures a < b ==> r == a - b + U64_LIMIT
  {
    if a >= b then a - b else a - b + U64_LIMIT
  }

  /** Unsigned subtraction of two uint32_t values, wrapping modulo 2^32. */
  function SubU32(a: nat, b: nat): (r: nat)
    requires IsU32(a) && IsU32(b)
    ensures IsU32(r)
    ensures a >= b ==> r == a - b
    ensures a < b ==> r == a - b + U32_LIMIT
  {
    if a >= b then a - b else a - b + U32_LIMIT
  }

  /** Unsigned addition of two uint32_t values, wrapping modulo 2^32. */
  function AddU32(a: nat, b: nat): (r: nat)
    requires IsU32(a) && IsU32(b)
    ensures IsU32(r)
    ensures a + b < U32_LIMIT ==> r == a + b
    ensures a + b >= U32_LIMIT ==> r == a + b - U32_LIMIT
  {
    if a + b < U32_LIMIT then a + b else a + b - U32_LIMIT
  }

  /** 2^n, the value of a left shift of 1 by n places. */
  function Pow2(n: nat): (r: nat)
    ensures r >= 1
  {
    if n == 0 then 1 else 2 * Pow2(n - 1)
  }

  /** Products are monotone in both (non-negative) factors. */
  lemma MulMono(a: nat, b: nat, c: nat, d: nat)
    requires a <= b && c <= d
    ensures a * c <= b * d
  {
    assert a * c <= b * c;
    assert b * c <= b * d;
  }

  /** Powers of two used by the drivers' counter widths and prescalers. */
  lemma Pow2Values()
    ensures Pow2(0) == 1 && Pow2(7) == 128
    ensures Pow2(16) == 0x1_0000 && Pow2(32) == 0x1_0000_0000
  {
    assert Pow2(8) == 256 by {
      assert Pow2(1) == 2 && Pow2(2) == 4 && Pow2(3) == 8 && Pow2(4) == 16;
      assert Pow2(5) == 32 && Pow2(6) == 64 && Pow2(7) == 128;
    }
    Pow2Add(8, 8);
    Pow2Add(16, 16);
  }

  lemma {:induction false} Pow2Add(m: nat, n: nat)
    ensures Pow2(m + n) == Pow2(m) * Pow2(n)
    decreases m
  {
    if m > 0 {
      Pow2Add(m - 1, n);
    }
  }

  lemma {:induction false} Pow2Mono(m: nat, n: nat)
    requires m <= n
    ensures Pow2(m) <= Pow2(n)
    decreases n
  {
    if m < n {
      Pow2Mono(m, n - 1);
    }
  }

  /** Euclidean division is determined by its quotient and remainder. */
  lemma DivUnique(a: nat, m: nat, q: nat, s: nat)
    requires m > 0 && s < m && a == q * m + s
    ensures a / m == q && a % m == s
  {
    MulSign(a / m - q, m);
  }

  /** A quotient by a positive divisor never exceeds the dividend. */
  lemma DivLe(a: nat, b: nat)
    requires b > 0
    ensures a / b <= a
  {
    MulMono(1, b, a / b, a / b);
  }

  /** Dividing by b and then by c is dividing by b * c. */
  lemma DivDiv(a: nat, b: nat, c: nat)
    requires b > 0 && c > 0
    ensures (a / b) / c == a / (b * c)
  {
    var q, r := a / b, a % b;
    var q2, r2 := q / c, q % c;
    assert a == q * b + r;
    assert q == q2 * c + r2;
    Regroup(q2, c, r2, b, r);
    RemainderBelowProduct(r2, c, b, r);
    DivUnique(a, b * c, q2, r2 * b + r);
  }

  /** (x*c + y)*b + r regrouped around the product b*c. */
  lemma Regroup(x: nat, c: nat, y: nat, b: nat, r: nat)
    ensures (x * c + y) * b + r == x * (b * c) + (y * b + r)
  {
    assert (x * c + y) * b == x * c * b + y * b;
    assert x * c * b == x * (b * c);
  }

  /** A digit below c scaled by b, plus a digit below b, stays below b*c. */
  lemma RemainderBelowProduct(y: nat, c: nat, b: nat, r: nat)
    requires y < c && r < b
    ensures y * b + r < b * c
  {
    MulMono(y, c - 1, b, b);
    assert (c - 1) * b == c * b - b;
  }

  function Min(a: int, b: int): (r: int)
    ensures r <= a && r <= b && (r == a || r == b)
  {
    if a <= b then a else b
  }

  /** Sign of a product with a positive factor (a helper for the lemmas below). */
  lemma MulSign(a: int, m: nat)
    ensures a >= 1 ==> a * m >= m
    ensures a <= -1 ==> a * m <= -(m as int)
  {
  }

  /** A multiple of m leaves no remainder and divides back exactly. */
  lemma MultipleMod(k: nat, m: nat)
    requires m > 0
    ensures (k * m) % m == 0 && (k * m) / m == k
  {
    var q, r := (k * m) / m, (k * m) % m;
    MulSign(k - q, m);
    assert (k - q) * m == r;
  }

  /** Sums and differences of multiples of m are multiples of m. */
  lemma MultipleSum(a: nat, b: nat, m: nat)
    requires m > 0 && a % m == 0 && b % m == 0
    ensures (a + b) % m == 0 && (b <= a ==> (a - b) % m == 0)
  {
    var qa, qb := a / m, b / m;
    assert a == qa * m && b == qb * m;
    assert a + b == (qa + qb) * m;
    MultipleMod(qa + qb, m);
    if b <= a {
      assert a - b == (qa - qb) * m;
      MultipleMod(qa - qb, m);
    }
  }
}

/** The values of asdk_errorcode_t (asdk-gen2/inc/asdk_error.h). */
module AsdkError {
  type ErrorCode = nat

  const ASDK_SUCCESS: ErrorCode := 0
  const ASDK_ERROR: ErrorCode := 1

  // A driver's validation of its configuration: checks made in order, the
  // first that fails deciding the status.

  /** One check of a configuration: whether it passes, and the error reported when it does not. */
  datatype Check = Check(passes: bool, code: ErrorCode)

  /** The index of the first check that fails, or the number of checks when every one passes. */
  function FirstFailing(checks: seq<Check>): (r: nat)
    ensures r <= |checks|
    ensures forall j :: 0 <= j < r ==> checks[j].passes
    ensures r < |checks| ==> !checks[r].passes
  {
    if |checks| == 0 || !checks[0].passes then 0
    else
      var rest := FirstFailing(checks[1..]);
      assert forall j :: 1 <= j < |checks| ==> checks[j] == checks[1..][j - 1];
      1 + rest
  }

  /** The first failing check is the one after a run of passing checks that fails, or the end. */
  lemma {:induction false} FirstFailingIs(checks: seq<Check>, i: nat)
    requires i <= |checks|
    requires forall j :: 0 <= j < i ==> checks[j].passes
    requires i < |checks| ==> !checks[i].passes
    ensures FirstFailing(checks) == i
    decreases i
  {
    if i > 0 {
      assert checks[0].passes;
      FirstFailingIs(checks[1..], i - 1);
    }
  }

  /** The first i checks all pass, stated one check at a time. */
  predicate PassThrough(checks: seq<Check>, i: nat)
    requires i <= |checks|
  {
    i == 0 || (PassThrough(checks, i - 1) && checks[i - 1].passes)
  }

  /** A run of passing checks followed by a failing one, or the end, locates the first failure. */
  lemma {:induction false} FirstFailingAfter(checks: seq<Check>, i: nat)
    requires i <= |checks| && PassThrough(checks, i)
    requires i < |checks| ==> !checks[i].passes
    ensures FirstFailing(checks) == i
  {
    PassThroughAll(checks, i);
    FirstFailingIs(checks, i);
  }

  lemma {:induction false} PassThroughAll(checks: seq<Check>, i: nat)
    requires i <= |checks| && PassThrough(checks, i)
    ensures forall j :: 0 <= j < i ==> checks[j].passes
  {
    if i > 0 {
      PassThroughAll(checks, i - 1);
    }
  }

  lemma {:induction false} AllPassThrough(checks: seq<Check>, i: nat)
    requires i <= |checks|
    requires forall j :: 0 <= j < i ==> checks[j].passes
    ensures PassThrough(checks, i)
  {
    if i > 0 {
      AllPassThrough(checks, i - 1);
    }
  }

  /** The status a sequence of checks gives: the error of the first that fails, else the success code. */
  function ChecksStatus(checks: seq<Check>, success: ErrorCode): (r: ErrorCode)
    ensures r == success <==> FirstFailing(checks) == |checks| || checks[FirstFailing(checks)].code == success
  {
    var f := FirstFailing(checks);
    if f == |checks| then success else checks[f].code
  }

  const ASDK_CLOCK_SUCCESS: ErrorCode := 201
  const ASDK_SYS_SUCCESS: ErrorCode := 901
  const ASDK_PINMUX_SUCCESS: ErrorCode := 301

  const ASDK_SPI_STATUS_SUCCESS: ErrorCode := 401
  const ASDK_SPI_STATUS_TIMEOUT: ErrorCode := 402
  const ASDK_SPI_ERROR_NULL_PTR: ErrorCode := 403
  const ASDK_SPI_STATUS_ERROR: ErrorCode := 404
  const ASDK_SPI_ERROR_INVALID_SLAVE_SELECT: ErrorCode := 406
  const ASDK_SPI_ERROR_INVALID_DATA_SIZE: ErrorCode := 409
  const ASDK_SPI_ERROR_INVALID_BAUD_RATE: ErrorCode := 410
  const ASDK_SPI_ERROR_RANGE_EXCEEDED: ErrorCode := 411
  const ASDK_SPI_ERROR_SLAVE_RANGE_EXCEEDED: ErrorCode := 412
  const ASDK_SPI_ERROR_INIT_FAIL: ErrorCode := 413
  const ASDK_SPI_ERROR_INVALID_TYPE: ErrorCode := 414
  const ASDK_SPI_ERROR_TRANSFER_FAIL: ErrorCode := 416
  const ASDK_SPI_ERROR_INVALID_BIT_ORDER: ErrorCode := 417
  const ASDK_SPI_ERROR_INVALID_SPI_MODE: ErrorCode := 418
  const ASDK_SPI_ERROR_MODULE_UNAVAILABLE: ErrorCode := 427
  const ASDK_SPI_ERROR_ISR_REQUIRED: ErrorCode := 428
  const ASDK_SPI_ERROR_FEATURE_NOT_IMPLEMENTED: ErrorCode := 429
  const ASDK_SPI_ERROR_INVALID_INTR_NUM: ErrorCode := 430

  const ASDK_CAN_SUCCESS: ErrorCode := 601
  const ASDK_CAN_ERROR_INVALID_CHANNEL: ErrorCode := 602
  const ASDK_CAN_ERROR_INVALID_DLC: ErrorCode := 606
  const ASDK_CAN_ERROR_INIT_FAILED: ErrorCode := 608
  const ASDK_CAN_ERROR_INVALID_BAUDRATE: ErrorCode := 609
  const ASDK_CAN_ERROR_INVALID_DATA_BAUDRATE: ErrorCode := 610
  const ASDK_CAN_ERROR_NULL_PTR: ErrorCode := 611
  const ASDK_CAN_ERROR_WRITE_FAILED: ErrorCode := 612
  const ASDK_CAN_ERROR_READ_FAILED: ErrorCode := 613
  const ASDK_CAN_ERROR_DEINIT_FAILED: ErrorCode := 614
  const ASDK_CAN_ERROR_HW_FEATURE_NOT_SUPPORTED: ErrorCode := 615
  const ASDK_CAN_ERROR_INVALID_INTR_NUM: ErrorCode := 616

  const ASDK_FLASH_STATUS_SUCCESS: ErrorCode := 701
  const ASDK_FLASH_STATUS_ERROR: ErrorCode := 702
  const ASDK_FLASH_ERROR_NULL_PTR: ErrorCode := 705
  const ASDK_FLASH_ERROR_FEATURE_NOT_IMPLEMENTED: ErrorCode := 708
  const ASDK_FLASH_ERROR_INVALID_FLASH_TYPE: ErrorCode := 711
  const ASDK_FLASH_ERROR_INVALID_FLASH_ADDRESS: ErrorCode := 714
  const ASDK_FLASH_ERROR_INVALID_INTR_NUM: ErrorCode := 717

  const ASDK_TIMER_SUCCESS: ErrorCode := 1001
  const ASDK_TIMER_ERROR_INVALID_CHANNEL: ErrorCode := 1002
  const ASDK_TIMER_ERROR_INVALID_TYPE: ErrorCode := 1003
  const ASDK_TIMER_ERROR_INVALID_COUNT_DIRECTION: ErrorCode := 1004
  const ASDK_TIMER_ERROR_INVALID_MODE: ErrorCode := 1005
  const ASDK_TIMER_ERROR_INVALID_PERIOD: ErrorCode := 1006
  const ASDK_TIMER_ERROR_INVALID_PRESCALER: ErrorCode := 1007
  const ASDK_TIMER_ERROR_INVALID_COMPARE_PERIOD: ErrorCode := 1008
  const ASDK_TIMER_ERROR_PINMUX: ErrorCode := 1009
  const ASDK_TIMER_ERROR_INVALID_INTR_NUM: ErrorCode := 1010
  const ASDK_TIMER_INIT_FAILED: ErrorCode := 1011

  const ASDK_MW_CAN_SERVICE_SUCCESS: ErrorCode := 1101
  const ASDK_MW_CAN_SERVICE_TX_BUSY: ErrorCode := 1102
  const ASDK_MW_CAN_SERVICE_ERROR_NULL_PTR: ErrorCode := 1103
  const ASDK_MW_CAN_SERVICE_TX_QUEUE_EMPTY: ErrorCode := 1105
  const ASDK_MW_CAN_SERVICE_TX_QUEUE_FULL: ErrorCode := 1106
  const ASDK_MW_CAN_SERVICE_RX_QUEUE_EMPTY: ErrorCode := 1107

  const ASDK_I2C_STATUS_SUCCESS: ErrorCode := 1201

  const ASDK_ADC_SUCCESS: ErrorCode := 1301
  const ASDK_ADC_ERROR_INIT_FAIL: ErrorCode := 1302
  const ASDK_ADC_ERROR_CHANNEL_INIT_FAIL: ErrorCode := 1303
  const ASDK_ADC_ERROR_NULL_PTR: ErrorCode := 1304
  const ASDK_ADC_ERROR_INVALID_PIN: ErrorCode := 1305
  const ASDK_ADC_ERROR_INVALID_PIN_COUNT: ErrorCode := 1306
  const ASDK_ADC_ERROR_INVALID_RESOLUTION: ErrorCode := 1307
  const ASDK_ADC_ERROR_INVALID_REFERENCE_VOLTAGE_SRC: ErrorCode := 1308
  const ASDK_ADC_ERROR_INVALID_SAMPLE_FREQ: ErrorCode := 1309
  const ASDK_ADC_ERROR_INVALID_TRIGGER_SRC: ErrorCode := 1312
  const ASDK_ADC_ERROR_INVALID_GROUP_INSTANCE: ErrorCode := 1315
  const ASDK_ADC_ERROR_INVALID_CALLBACK: ErrorCode := 1317
  const ASDK_ADC_ERROR_INVALID_DMA_DESTINATION: ErrorCode := 1319
  const ASDK_ADC_ERROR_INVALID_DMA_DESTINATION_LEN: ErrorCode := 1320
  const ASDK_ADC_ERROR_FUNCTION_NOT_IMPLEMENTED: ErrorCode := 1321
  const ASDK_ADC_ERROR_GROUP_HANDLE_NOT_AVAILABLE: ErrorCode := 1322
  const ASDK_ADC_ERROR_PIN_BUFFER_NOT_AVAILABLE: ErrorCode := 1323
  const ASDK_ADC_ERROR_HW_TRIG_NOT_SUPPORTED: ErrorCode := 1324
  const ASDK_ADC_ERROR_DMA_TRIG_NOT_SUPPORTED: ErrorCode := 1325
  const ASDK_ADC_ERROR_DAL_INVALID_PIN_MAP: ErrorCode := 1326
  const ASDK_ADC_ERROR_PIN_ALREADY_INITIALIZED: ErrorCode := 1327
  const ASDK_ADC_ERROR_ISR_REQUIRED: ErrorCode := 1329
  const ASDK_ADC_ERROR_CONVERSION_FAIL: ErrorCode := 1330
  const ASDK_ADC_ERROR_INVALID_INTR_NUM: ErrorCode := 1331

  const ASDK_UART_STATUS_SUCCESS: ErrorCode := 1401

  const ASDK_PWM_SUCCESS: ErrorCode := 1501
  const ASDK_PWM_ERROR_INVALID_CHANNEL: ErrorCode := 1502
  const ASDK_PWM_ERROR_NULL_PTR: ErrorCode := 1503
  const ASDK_PWM_ERROR_INVALID_DEADTIME: ErrorCode := 1504
  const ASDK_PWM_ERROR_INVALID_MODE: ErrorCode := 1505
  const ASDK_PWM_ERROR_INVALID_COUNT_DIRECTION: ErrorCode := 1506
  const ASDK_PWM_ERROR_INVALID_RUN_MODE: ErrorCode := 1507
  const ASDK_PWM_ERROR_INVALID_PRESCALER: ErrorCode := 1508
  const ASDK_PWM_ERROR_INVALID_FREQUENCY: ErrorCode := 1509
  const ASDK_PWM_ERROR_INVALID_DUTY_CYCLE: ErrorCode := 1510
  const ASDK_PWM_ERROR_INVALID_OUTPUT_ALIGN: ErrorCode := 1511
  const ASDK_PWM_ERROR_INIT_FAILED: ErrorCode := 1514
  const ASDK_PWM_ERROR_INVALID_INTR_NUM: ErrorCode := 1515

  const ASDK_MW_EXTERNAL_EEPROM_STATUS_SUCCESS: ErrorCode := 1601
  const ASDK_MW_EXTERNAL_EEPROM_ERROR_INVALID_SIZE: ErrorCode := 1602
  const ASDK_MW_EXTERNAL_EEPROM_ERROR_INVALID_ADDRESS_WIDTH: ErrorCode := 1603
  const ASDK_MW_EXTERNAL_EEPROM_ERROR_INVALID_PAGE_SIZE: ErrorCode := 1604
  const ASDK_MW_EXTERNAL_EEPROM_ERROR_FEATURE_NOT_IMPLEMENTED: ErrorCode := 1606
  const ASDK_MW_EXTERNAL_EEPROM_ERROR_INVALID_PROTOCOL: ErrorCode := 1607
  const ASDK_MW_EXTERNAL_EEPROM_ERROR_BUSY: ErrorCode := 1608
  const ASDK_MW_EXTERNAL_EEPROM_ERROR_INVALID_ADDRESS: ErrorCode := 1609
  const ASDK_MW_EXTERNAL_EEPROM_ERROR_INVALID_LENGTH: ErrorCode := 1610
  const ASDK_MW_EXTERNAL_EEPROM_ERROR_INVALID_BUFFER: ErrorCode := 1611
  const ASDK_MW_EXTERNAL_EEPROM_ERROR_NULL_PTR: ErrorCode := 1612
  const ASDK_MW_EXTERNAL_EEPROM_ERROR_LESS_BUFFER_SIZE: ErrorCode := 1613
  const ASDK_MW_EXTERNAL_EEPROM_ERROR_INVALID_INDEX: ErrorCode := 1615
}

/** The values of asdk_timer_event_t (asdk-gen2/inc/asdk_timer.h). */
module TimerEvents {
  const ASDK_TIMER_TERMINAL_COUNT_EVENT: nat := 0x01
  const ASDK_TIMER_MATCH_EVENT: nat := 0x02
  const ASDK_TIMER_CAPTURE_EVENT: nat := 0x04
}
